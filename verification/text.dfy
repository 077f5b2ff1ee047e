/** String operations the screens use, written out with the semantics of the
    JavaScript built-ins and regular expressions they stand for. Strings are
    sequences of characters; case folding is ASCII-only. */
module Text {
  import opened Wrappers
  import opened Lists

  // ---------------------------------------------------------------------------
  // Character classes
  // ---------------------------------------------------------------------------

  /** `\s` in a regular expression; the same set `String.prototype.trim` strips. */
  predicate IsWhitespace(c: char) {
    || c == ' ' || c == '\t' || c == '\n' || c == '\r' || c == '\U{000B}' || c == '\U{000C}'
    || c == '\U{00A0}' || c == '\U{1680}' || ('\U{2000}' <= c <= '\U{200A}')
    || c == '\U{2028}' || c == '\U{2029}' || c == '\U{202F}' || c == '\U{205F}'
    || c == '\U{3000}' || c == '\U{FEFF}'
  }

  /** `\d`, i.e. `[0-9]` */
  predicate IsDigit(c: char) {
    '0' <= c <= '9'
  }

  predicate IsAsciiUpper(c: char) {
    'A' <= c <= 'Z'
  }

  predicate IsAsciiLower(c: char) {
    'a' <= c <= 'z'
  }

  /** `[a-zA-Z0-9_]` */
  predicate IsWordChar(c: char) {
    IsAsciiUpper(c) || IsAsciiLower(c) || IsDigit(c) || c == '_'
  }

  predicate AllDigits(s: string) {
    forall i :: 0 <= i < |s| ==> IsDigit(s[i])
  }

  // ---------------------------------------------------------------------------
  // Case folding
  // ---------------------------------------------------------------------------

  function LowerChar(c: char): char {
    if IsAsciiUpper(c) then (c as int + 32) as char else c
  }

  /** `toLowerCase`, restricted to ASCII letters. */
  function ToLower(s: string): (r: string)
    ensures |r| == |s|
    ensures forall i :: 0 <= i < |s| ==> r[i] == LowerChar(s[i])
  {
    seq(|s|, i requires 0 <= i < |s| => LowerChar(s[i]))
  }

  // ---------------------------------------------------------------------------
  // Slicing and filtering
  // ---------------------------------------------------------------------------

  // ---------------------------------------------------------------------------
  // Lengths in UTF-16 code units
  // ---------------------------------------------------------------------------

  /** The UTF-16 code units `c` occupies: two for a character outside the Basic
      Multilingual Plane (a surrogate pair), one otherwise. */
  function CharUnits(c: char): nat {
    if c as int > 0xFFFF then 2 else 1
  }

  /** `s.length`, which counts UTF-16 code units, not characters. */
  function Units(s: string): (n: nat)
    ensures |s| <= n <= 2 * |s|
  {
    if s == [] then 0 else CharUnits(s[0]) + Units(s[1..])
  }

  /** Every character of `s` lies in the Basic Multilingual Plane. */
  predicate InBmp(s: string) {
    forall i :: 0 <= i < |s| ==> CharUnits(s[i]) == 1
  }

  /** The tail of text in the Basic Multilingual Plane stays in it. */
  lemma BmpTail(s: string)
    requires s != [] && InBmp(s)
    ensures CharUnits(s[0]) == 1 && InBmp(s[1..])
  {
    forall i | 0 <= i < |s[1..]| ensures CharUnits(s[1..][i]) == 1 {
      assert s[1..][i] == s[i + 1];
    }
  }

  lemma {:induction false} UnitsOfBmp(s: string)
    requires InBmp(s)
    ensures Units(s) == |s|
  {
    if s != [] {
      BmpTail(s);
      UnitsOfBmp(s[1..]);
    }
  }

  /** Digits are single code units, so a digit string's `length` is its character count. */
  lemma DigitsAreSingleUnits(s: string)
    requires AllDigits(s)
    ensures Units(s) == |s|
  {
    UnitsOfBmp(s);
  }

  /** `s.slice(0, n)` with `n` counted in UTF-16 code units: the longest prefix of
      at most `n` units. */
  function TakeUnits(s: string, n: nat): (r: string)
    ensures r <= s
    ensures Units(r) <= n
    ensures Units(s) <= n ==> r == s
    ensures r == s || Units(r) + CharUnits(s[|r|]) > n
  {
    if s == [] || CharUnits(s[0]) > n then []
    else
      var rest := TakeUnits(s[1..], n - CharUnits(s[0]));
      assert ([s[0]] + rest)[1..] == rest;
      [s[0]] + rest
  }

  /** On text of single-unit characters, the cut by units is the cut by characters. */
  lemma {:induction false} TakeUnitsOfBmp(s: string, n: nat)
    requires InBmp(s)
    ensures TakeUnits(s, n) == Take(s, n)
  {
    if s != [] && n > 0 {
      BmpTail(s);
      TakeUnitsOfBmp(s[1..], n - 1);
      assert TakeUnits(s, n) == [s[0]] + Take(s[1..], n - 1);
      if |s| <= n {
        assert s == [s[0]] + s[1..];
      } else {
        assert s[..n] == [s[0]] + s[1..][..n - 1];
      }
    }
  }

  /** `s.slice(0, n)` on text whose characters are all single code units (the
      digit strings of the payment form), counted in characters. */
  function Take(s: string, n: nat): (r: string)
    ensures |r| <= n
    ensures r <= s
    ensures |s| <= n ==> r == s
  {
    if |s| <= n then s else s[..n]
  }

  /** `s.slice(-1)` on text whose last character is a single code unit (the digit
      strings the code boxes accept): that character, or "" for the empty string. */
  function Last(s: string): (r: string)
    ensures |r| <= 1
    ensures s != [] ==> r == [s[|s| - 1]]
    ensures s == [] ==> r == []
  {
    if s == [] then [] else s[|s| - 1..]
  }

  /** The characters of `s` that satisfy `keep`, in order; `s.replace(/[^…]/g, '')`. */
  function Keep(s: string, keep: char -> bool): (r: string)
    ensures |r| <= |s|
    ensures forall i :: 0 <= i < |r| ==> keep(r[i])
  {
    if s == [] then [] else (if keep(s[0]) then [s[0]] else []) + Keep(s[1..], keep)
  }

  lemma {:induction false} KeepAppend(a: string, b: string, keep: char -> bool)
    ensures Keep(a + b, keep) == Keep(a, keep) + Keep(b, keep)
  {
    if a == [] {
      assert a + b == b;
    } else {
      assert (a + b)[0] == a[0];
      assert (a + b)[1..] == a[1..] + b;
      KeepAppend(a[1..], b, keep);
    }
  }

  lemma {:induction false} KeepWhenAllKept(s: string, keep: char -> bool)
    requires forall i :: 0 <= i < |s| ==> keep(s[i])
    ensures Keep(s, keep) == s
  {
    if s != [] {
      KeepWhenAllKept(s[1..], keep);
    }
  }

  /** `s.replace(/\D/g, '')` (equally `/[^0-9]/g`) */
  function Digits(s: string): (r: string)
    ensures AllDigits(r)
    ensures |r| <= |s|
  {
    Keep(s, IsDigit)
  }

  lemma DigitsOfDigits(s: string)
    requires AllDigits(s)
    ensures Digits(s) == s
  {
    KeepWhenAllKept(s, IsDigit);
  }

  predicate NotWhitespace(c: char) {
    !IsWhitespace(c)
  }

  /** `s.replace(/\s/g, '')` */
  function StripWhitespace(s: string): (r: string)
    ensures forall i :: 0 <= i < |r| ==> !IsWhitespace(r[i])
  {
    Keep(s, NotWhitespace)
  }

  // ---------------------------------------------------------------------------
  // Substring search
  // ---------------------------------------------------------------------------

  predicate StartsWith(s: string, prefix: string) {
    prefix <= s
  }

  /** `haystack.includes(needle)` */
  predicate Contains(haystack: string, needle: string)
    decreases |haystack|
  {
    StartsWith(haystack, needle) || (haystack != [] && Contains(haystack[1..], needle))
  }

  /** `needle` occurs in `haystack` starting at offset `i`. */
  predicate OccursAt(haystack: string, needle: string, i: nat) {
    i + |needle| <= |haystack| && haystack[i..i + |needle|] == needle
  }

  lemma TailSlice(s: string, a: nat, b: nat)
    requires s != [] && a <= b <= |s| - 1
    ensures s[1..][a..b] == s[a + 1..b + 1]
  {
  }

  /** `Contains` finds exactly the needles that occur at some offset of the haystack. */
  lemma {:induction false} ContainsIffOccurs(haystack: string, needle: string)
    ensures Contains(haystack, needle) <==> exists i: nat :: OccursAt(haystack, needle, i)
    decreases |haystack|
  {
    var n := |needle|;
    if StartsWith(haystack, needle) {
      assert OccursAt(haystack, needle, 0);
    } else if haystack == [] {
      assert n > 0;
    } else {
      var tail := haystack[1..];
      ContainsIffOccurs(tail, needle);
      if Contains(tail, needle) {
        var i: nat :| OccursAt(tail, needle, i);
        TailSlice(haystack, i, i + n);
        assert OccursAt(haystack, needle, i + 1);
      } else if exists i: nat :: OccursAt(haystack, needle, i) {
        var i: nat :| OccursAt(haystack, needle, i);
        assert i != 0;
        TailSlice(haystack, i - 1, i - 1 + n);
        assert OccursAt(tail, needle, i - 1);
        assert false;
      }
    }
  }

  lemma EverythingContainsEmpty(haystack: string)
    ensures Contains(haystack, "")
  {
  }

  // ---------------------------------------------------------------------------
  // Trimming
  // ---------------------------------------------------------------------------

  function TrimStart(s: string): (r: string)
    ensures |r| <= |s| && r == s[|s| - |r|..]
  {
    if s != [] && IsWhitespace(s[0]) then TrimStart(s[1..]) else s
  }

  function TrimEnd(s: string): (r: string)
    ensures r <= s
  {
    if s != [] && IsWhitespace(s[|s| - 1]) then TrimEnd(s[..|s| - 1]) else s
  }

  /** `s.trim()` */
  function Trim(s: string): string {
    TrimEnd(TrimStart(s))
  }

  /** Nothing but whitespace (the empty string included). */
  predicate IsBlank(s: string) {
    forall i :: 0 <= i < |s| ==> IsWhitespace(s[i])
  }

  lemma {:induction false} TrimStartEmptyIffBlank(s: string)
    ensures TrimStart(s) == [] <==> IsBlank(s)
    ensures TrimStart(s) == [] || !IsWhitespace(TrimStart(s)[0])
  {
    if s != [] && IsWhitespace(s[0]) {
      TrimStartEmptyIffBlank(s[1..]);
      assert IsBlank(s) <==> IsBlank(s[1..]) by {
        if IsBlank(s[1..]) {
          forall i | 0 <= i < |s| ensures IsWhitespace(s[i]) {
            if i > 0 {
              assert s[i] == s[1..][i - 1];
            }
          }
        }
      }
    }
  }

  lemma {:induction false} TrimEndKeepsHead(s: string)
    requires s != [] && !IsWhitespace(s[0])
    ensures TrimEnd(s) != []
  {
    if IsWhitespace(s[|s| - 1]) {
      assert |s| > 1;
      TrimEndKeepsHead(s[..|s| - 1]);
    }
  }

  /** `s.trim() !== ''` exactly when some character of `s` is not whitespace. */
  lemma TrimEmptyIffBlank(s: string)
    ensures Trim(s) == [] <==> IsBlank(s)
  {
    TrimStartEmptyIffBlank(s);
    if TrimStart(s) != [] {
      TrimEndKeepsHead(TrimStart(s));
    }
  }

  // ---------------------------------------------------------------------------
  // The e-mail shape `/^[^\s@]+@[^\s@]+\.[^\s@]+$/`
  // ---------------------------------------------------------------------------

  /** `[^\s@]` */
  predicate IsAddressChar(c: char) {
    !IsWhitespace(c) && c != '@'
  }

  predicate AllAddressChars(s: string) {
    forall i :: 0 <= i < |s| ==> IsAddressChar(s[i])
  }

  /** `s` splits as local part `s[..i]`, '@', host `s[i + 1..j]`, '.', suffix `s[j + 1..]`,
      each part a non-empty run of `[^\s@]`. */
  predicate EmailSplitAt(s: string, i: nat, j: nat) {
    && 0 < i < j - 1 && j < |s| - 1
    && s[i] == '@' && s[j] == '.'
    && AllAddressChars(s[..i]) && AllAddressChars(s[i + 1..j]) && AllAddressChars(s[j + 1..])
  }

  /** The language of the regular expression, read off its three `[^\s@]+` runs. */
  ghost predicate EmailPattern(s: string) {
    exists i: nat, j: nat :: EmailSplitAt(s, i, j)
  }

  /** A '.' with at least one character on each side. */
  predicate HasInnerDot(d: string) {
    exists k :: 0 < k < |d| - 1 && d[k] == '.'
  }

  /** The check the sign-up and password-reset screens apply: split at the first
      '@' and look at the two sides. */
  predicate IsValidEmail(s: string) {
    match IndexOf(s, '@')
    case None => false
    case Some(i) => 0 < i && AllAddressChars(s[..i]) && AllAddressChars(s[i + 1..]) && HasInnerDot(s[i + 1..])
  }

  lemma ValidEmailHasPattern(s: string)
    requires IsValidEmail(s)
    ensures EmailPattern(s)
  {
    var i := IndexOf(s, '@').value;
    var d := s[i + 1..];
    var k :| 0 < k < |d| - 1 && d[k] == '.';
    var j := i + 1 + k;
    assert s[i + 1..j] == d[..k];
    assert s[j + 1..] == d[k + 1..];
    assert EmailSplitAt(s, i, j);
  }

  lemma PatternIsValidEmail(s: string, i: nat, j: nat)
    requires EmailSplitAt(s, i, j)
    ensures IsValidEmail(s)
  {
    var r := IndexOf(s, '@');
    assert s[i] == '@';
    assert r.Some?;
    assert r.value == i by {
      assert '@' !in s[..i];
    }
    var d := s[i + 1..];
    forall t | 0 <= t < |d| ensures IsAddressChar(d[t]) {
      if i + 1 + t < j {
        assert d[t] == s[i + 1..j][t];
      } else if i + 1 + t > j {
        assert d[t] == s[j + 1..][t - (j - i)];
      }
    }
    assert d[j - i - 1] == '.';
  }

  /** The check accepts exactly the strings the regular expression matches. */
  lemma IsValidEmailMatchesPattern(s: string)
    ensures IsValidEmail(s) <==> EmailPattern(s)
  {
    if IsValidEmail(s) {
      ValidEmailHasPattern(s);
    }
    if EmailPattern(s) {
      var i: nat, j: nat :| EmailSplitAt(s, i, j);
      PatternIsValidEmail(s, i, j);
    }
  }
}
