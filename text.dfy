/**
 * The string operations of the Kotlin and JavaScript standard libraries that the
 * weather app relies on: whitespace tests, trimming, case mapping, substring
 * search and the decimal rendering of an integer in a string template.
 */
module Text {

  // ---------------------------------------------------------------------------
  // Whitespace

  /** Kotlin's Char.isWhitespace on the JVM: Character.isWhitespace or Character.isSpaceChar. */
  predicate IsKotlinWhitespace(c: char) {
    || ('\t' <= c <= '\r')
    || ('\U{1C}' <= c <= '\U{1F}')
    || c == ' ' || c == '\U{A0}' || c == '\U{1680}'
    || ('\U{2000}' <= c <= '\U{200A}')
    || c == '\U{2028}' || c == '\U{2029}' || c == '\U{202F}' || c == '\U{205F}' || c == '\U{3000}'
  }

  /** The WhiteSpace and LineTerminator code points of JavaScript: what String.prototype.trim removes. */
  predicate IsJsWhitespace(c: char) {
    || ('\t' <= c <= '\r')
    || c == ' ' || c == '\U{A0}' || c == '\U{1680}'
    || ('\U{2000}' <= c <= '\U{200A}')
    || c == '\U{2028}' || c == '\U{2029}' || c == '\U{202F}' || c == '\U{205F}' || c == '\U{3000}'
    || c == '\U{FEFF}'
  }

  /** Kotlin's CharSequence.isBlank: every character is whitespace (so the empty string is blank). */
  predicate IsBlank(s: string) {
    forall i :: 0 <= i < |s| ==> IsKotlinWhitespace(s[i])
  }

  /** The first index at or after `i` holding a character that trim keeps, or |s|. */
  function SkipBlanks(s: string, i: nat): (k: nat)
    requires i <= |s|
    decreases |s| - i
    ensures i <= k <= |s|
    ensures forall j :: i <= j < k ==> IsJsWhitespace(s[j])
    ensures k < |s| ==> !IsJsWhitespace(s[k])
  {
    if i < |s| && IsJsWhitespace(s[i]) then SkipBlanks(s, i + 1) else i
  }

  /** The end of `s[lo..hi]` once its trailing whitespace is dropped. */
  function SkipBlanksBack(s: string, lo: nat, hi: nat): (e: nat)
    requires lo <= hi <= |s|
    decreases hi - lo
    ensures lo <= e <= hi
    ensures forall j :: e <= j < hi ==> IsJsWhitespace(s[j])
    ensures lo < e ==> !IsJsWhitespace(s[e - 1])
  {
    if lo < hi && IsJsWhitespace(s[hi - 1]) then SkipBlanksBack(s, lo, hi - 1) else hi
  }

  /**
   * JavaScript's String.prototype.trim: the input with its whitespace prefix and
   * whitespace suffix dropped, what is left neither starting nor ending with whitespace.
   */
  function Trim(s: string): (r: string)
    ensures var k := SkipBlanks(s, 0);
      && k + |r| <= |s| && r == s[k..k + |r|]
      && (forall i :: 0 <= i < k ==> IsJsWhitespace(s[i]))
      && (forall i :: k + |r| <= i < |s| ==> IsJsWhitespace(s[i]))
    ensures r != [] ==> !IsJsWhitespace(r[0]) && !IsJsWhitespace(r[|r| - 1])
  {
    var k := SkipBlanks(s, 0);
    s[k..SkipBlanksBack(s, k, |s|)]
  }

  /** Trimming leaves nothing exactly when the input is all whitespace. */
  lemma TrimEmptyIff(s: string)
    ensures Trim(s) == [] <==> forall i :: 0 <= i < |s| ==> IsJsWhitespace(s[i])
  {
  }

  /** Trimming is the identity on a string without whitespace at either end. */
  lemma TrimFixesTrimmed(s: string)
    requires s != [] ==> !IsJsWhitespace(s[0]) && !IsJsWhitespace(s[|s| - 1])
    ensures Trim(s) == s
  {
  }

  /** Trimming twice is trimming once. */
  lemma TrimIdempotent(s: string)
    ensures Trim(Trim(s)) == Trim(s)
  {
    TrimFixesTrimmed(Trim(s));
  }

  // ---------------------------------------------------------------------------
  // Case mapping: one character to one character, for ASCII and the Latin-1 letters.

  predicate IsUpperLetter(c: char) {
    ('A' <= c <= 'Z') || ('\U{C0}' <= c <= '\U{DE}' && c != '\U{D7}')
  }

  predicate IsLowerLetter(c: char) {
    ('a' <= c <= 'z') || ('\U{E0}' <= c <= '\U{FE}' && c != '\U{F7}')
  }

  function LowerChar(c: char): (r: char)
    ensures !IsUpperLetter(r)
    ensures IsUpperLetter(c) ==> IsLowerLetter(r) && r as int == c as int + 32
    ensures !IsUpperLetter(c) ==> r == c
  {
    if IsUpperLetter(c) then (c as int + 32) as char else c
  }

  function UpperChar(c: char): (r: char)
    ensures !IsLowerLetter(r)
    ensures IsLowerLetter(c) ==> IsUpperLetter(r) && r as int + 32 == c as int
    ensures !IsLowerLetter(c) ==> r == c
  {
    if IsLowerLetter(c) then (c as int - 32) as char else c
  }

  /** Upper- and lower-casing a character agree on the letter they name. */
  lemma CaseRoundTrip(c: char)
    ensures LowerChar(UpperChar(c)) == LowerChar(c)
    ensures UpperChar(LowerChar(c)) == UpperChar(c)
    ensures LowerChar(LowerChar(c)) == LowerChar(c) && UpperChar(UpperChar(c)) == UpperChar(c)
  {
  }

  /** Kotlin's String.lowercase() and JavaScript's toLowerCase(): character by character. */
  function Lower(s: string): (r: string)
    ensures |r| == |s|
    ensures forall i :: 0 <= i < |r| ==> !IsUpperLetter(r[i])
    ensures forall i :: 0 <= i < |s| && !IsUpperLetter(s[i]) ==> r[i] == s[i]
    ensures forall i :: 0 <= i < |s| && IsUpperLetter(s[i]) ==> IsLowerLetter(r[i]) && r[i] as int == s[i] as int + 32
  {
    seq(|s|, i requires 0 <= i < |s| => LowerChar(s[i]))
  }

  /** Lower-casing twice is lower-casing once: a cache key is its own key. */
  lemma LowerIdempotent(s: string)
    ensures Lower(Lower(s)) == Lower(s)
  {
    forall i | 0 <= i < |s| ensures Lower(Lower(s))[i] == Lower(s)[i] {
      CaseRoundTrip(s[i]);
    }
  }

  // ---------------------------------------------------------------------------
  // Substring search

  /** `s` begins with `p`, compared character by character. */
  function StartsWith(s: string, p: string): bool {
    p == [] || (s != [] && s[0] == p[0] && StartsWith(s[1..], p[1..]))
  }

  /** StartsWith is the prefix relation on sequences. */
  lemma {:induction false} StartsWithIsPrefix(s: string, p: string)
    ensures StartsWith(s, p) <==> p <= s
  {
    if p != [] && s != [] {
      StartsWithIsPrefix(s[1..], p[1..]);
      if p[1..] <= s[1..] && s[0] == p[0] {
        assert p == [p[0]] + p[1..];
        assert s[..|p|] == [s[0]] + s[1..][..|p| - 1];
      }
    }
  }

  /** Kotlin's String.contains(other): `p` occurs in `s` (the empty string occurs everywhere). */
  function Contains(s: string, p: string): bool
    decreases |s|
  {
    StartsWith(s, p) || (s != [] && Contains(s[1..], p))
  }

  /** `p` starts at position `i` of `s`. */
  predicate OccursAt(s: string, p: string, i: int) {
    0 <= i <= |s| - |p| && s[i..i + |p|] == p
  }

  /** Contains agrees with "there is a position where `p` starts". */
  lemma {:induction false} ContainsIff(s: string, p: string)
    ensures Contains(s, p) <==> exists i :: OccursAt(s, p, i)
  {
    StartsWithIsPrefix(s, p);
    if p <= s {
      assert OccursAt(s, p, 0);
    } else if s == [] {
    } else {
      ContainsIff(s[1..], p);
      if Contains(s[1..], p) {
        var i :| OccursAt(s[1..], p, i);
        assert OccursAt(s, p, i + 1);
      }
      forall i | 0 < i && OccursAt(s, p, i) ensures OccursAt(s[1..], p, i - 1) {
        assert s[1..][i - 1..i - 1 + |p|] == s[i..i + |p|];
      }
    }
  }

  /** Whatever stands around `p`, `p` occurs in the result. */
  lemma {:induction false} ContainsInfix(a: string, p: string, b: string)
    ensures Contains(a + p + b, p)
  {
    if a == [] {
      assert a + p + b == p + b;
      StartsWithIsPrefix(p + b, p);
    } else {
      assert (a + p + b)[1..] == a[1..] + p + b;
      ContainsInfix(a[1..], p, b);
    }
  }

  /** A pattern whose first character does not occur in `s` does not occur in `s`. */
  lemma {:induction false} FirstCharAbsent(s: string, p: string)
    requires p != [] && p[0] !in s
    ensures !Contains(s, p)
  {
    if s != [] {
      assert s[0] != p[0];
      FirstCharAbsent(s[1..], p);
    }
  }

  /** A prefix that lacks the pattern's first character cannot hold the start of a match. */
  lemma {:induction false} SkipPrefix(a: string, b: string, p: string)
    requires p != [] && p[0] !in a
    ensures Contains(a + b, p) ==> Contains(b, p)
  {
    if a == [] {
      assert a + b == b;
    } else {
      assert (a + b)[0] != p[0];
      assert (a + b)[1..] == a[1..] + b;
      SkipPrefix(a[1..], b, p);
    }
  }

  /** A string that differs from the pattern at some position does not start with it. */
  lemma {:induction false} MismatchAt(s: string, p: string, j: nat)
    requires j < |s| && j < |p| && s[j] != p[j]
    ensures !StartsWith(s, p)
  {
    if j > 0 && s[0] == p[0] {
      MismatchAt(s[1..], p[1..], j - 1);
    }
  }

  /** Where the pattern does not start, containment is decided by the rest of the string. */
  lemma ContainsPastMismatch(s: string, p: string)
    requires s != [] && !StartsWith(s, p)
    ensures Contains(s, p) == Contains(s[1..], p)
  {
  }

  // ---------------------------------------------------------------------------
  // Decimal rendering of a status code in a string template

  function DigitChar(d: nat): (c: char)
    requires d < 10
    ensures '0' <= c <= '9'
  {
    ('0' as int + d) as char
  }

  /** Int.toString() for a non-negative value. */
  function DecimalString(n: nat): (r: string)
    ensures r != []
    ensures forall i :: 0 <= i < |r| ==> '0' <= r[i] <= '9'
  {
    if n < 10 then [DigitChar(n)] else DecimalString(n / 10) + [DigitChar(n % 10)]
  }

  /** Reads a string of decimal digits back as a number. */
  function DecimalValue(s: string): nat
    requires forall i :: 0 <= i < |s| ==> '0' <= s[i] <= '9'
  {
    if s == [] then 0 else DecimalValue(s[..|s| - 1]) * 10 + (s[|s| - 1] as int - '0' as int)
  }

  /** The decimal rendering loses nothing: the status code can be read back out of a message. */
  lemma {:induction false} DecimalRoundTrip(n: nat)
    ensures DecimalValue(DecimalString(n)) == n
  {
    var r := DecimalString(n);
    if n >= 10 {
      assert r[..|r| - 1] == DecimalString(n / 10);
      DecimalRoundTrip(n / 10);
    }
  }
}
