/**
 * The Kotlin standard-library string operations the app relies on:
 * Char.isWhitespace, String.isBlank, trim, trimEnd(char), lowercase,
 * capitalize and Int.toString.
 */
module Text {

  /** The characters for which Char.isWhitespace holds on the JVM (Java's isWhitespace or isSpaceChar). */
  const WhitespaceChars: set<char> := {
    '\t', '\n', '\U{B}', '\U{C}', '\r', '\U{1C}', '\U{1D}', '\U{1E}', '\U{1F}', ' ', '\U{A0}', '\U{1680}',
    '\U{2000}', '\U{2001}', '\U{2002}', '\U{2003}', '\U{2004}', '\U{2005}', '\U{2006}', '\U{2007}',
    '\U{2008}', '\U{2009}', '\U{200A}', '\U{2028}', '\U{2029}', '\U{202F}', '\U{205F}', '\U{3000}'
  }

  predicate IsWhitespace(c: char) {
    c in WhitespaceChars
  }

  /** String.isBlank: every character is whitespace, so the empty string is blank. */
  predicate IsBlank(s: string)
    ensures s == [] ==> IsBlank(s)
    ensures s != [] && !IsWhitespace(s[0]) ==> !IsBlank(s)
  {
    forall i :: 0 <= i < |s| ==> IsWhitespace(s[i])
  }

  // ---------------------------------------------------------------------------
  // Trimming, as Kotlin does it: find the first and the last kept position
  // ---------------------------------------------------------------------------

  /** The first position at or after i whose character is not dropped, or |s| if there is none. */
  function SkipForward(s: string, drop: char -> bool, i: nat): (k: nat)
    requires i <= |s|
    decreases |s| - i
    ensures i <= k <= |s|
    ensures forall p :: i <= p < k ==> drop(s[p])
    ensures k == |s| || !drop(s[k])
  {
    if i < |s| && drop(s[i]) then SkipForward(s, drop, i + 1) else i
  }

  /** Moving the end j of s[lo..j] back over dropped characters, but never below lo. */
  function SkipBackward(s: string, drop: char -> bool, lo: nat, j: nat): (e: nat)
    requires lo <= j <= |s|
    ensures lo <= e <= j
    ensures forall p :: e <= p < j ==> drop(s[p])
    ensures e == lo || !drop(s[e - 1])
  {
    if lo < j && drop(s[j - 1]) then SkipBackward(s, drop, lo, j - 1) else j
  }

  /** String.trimEnd(c): the longest prefix of s that does not end in c; all that is dropped is c. */
  function TrimEnd(s: string, c: char): (r: string)
    ensures r <= s
    ensures r == [] || r[|r| - 1] != c
    ensures forall i :: |r| <= i < |s| ==> s[i] == c
  {
    s[..SkipBackward(s, ch => ch == c, 0, |s|)]
  }

  /** Those three properties determine trimEnd(c): any prefix that has them is its result. */
  lemma TrimEndUnique(s: string, c: char, p: string)
    requires p <= s
    requires p == [] || p[|p| - 1] != c
    requires forall i :: |p| <= i < |s| ==> s[i] == c
    ensures p == TrimEnd(s, c)
  {
  }

  /** Trimming c from the end a second time changes nothing. */
  lemma TrimEndIdempotent(s: string, c: char)
    ensures TrimEnd(TrimEnd(s, c), c) == TrimEnd(s, c)
  {
    var r := TrimEnd(s, c);
    TrimEndUnique(r, c, r);
  }

  /** String.trim(): drops whitespace at both ends; nothing is left exactly when s is blank. */
  function Trim(s: string): (r: string)
    ensures r == [] <==> IsBlank(s)
    ensures r != [] ==> !IsWhitespace(r[0]) && !IsWhitespace(r[|r| - 1])
  {
    var i := SkipForward(s, IsWhitespace, 0);
    var j := SkipBackward(s, IsWhitespace, i, |s|);
    assert i < |s| ==> i < j;
    s[i..j]
  }

  /** What trim leaves is one contiguous slice of s, and everything cut off on either side is whitespace. */
  lemma TrimIsSlice(s: string)
    ensures var r := Trim(s);
      exists i :: 0 <= i <= |s| - |r| && r == s[i..i + |r|] && IsBlank(s[..i]) && IsBlank(s[i + |r|..])
  {
    var i := SkipForward(s, IsWhitespace, 0);
    var j := SkipBackward(s, IsWhitespace, i, |s|);
    assert Trim(s) == s[i..j];
    assert forall p :: 0 <= p < i ==> s[..i][p] == s[p];
    assert forall p :: 0 <= p < |s| - j ==> s[j..][p] == s[j + p];
  }

  // ---------------------------------------------------------------------------
  // Letter case (ASCII letters)
  // ---------------------------------------------------------------------------

  function LowerChar(c: char): char {
    if 'A' <= c <= 'Z' then (c as int + 32) as char else c
  }

  function UpperChar(c: char): char {
    if 'a' <= c <= 'z' then (c as int - 32) as char else c
  }

  /** String.lowercase(), on ASCII letters. */
  function Lowercase(s: string): (r: string)
    ensures |r| == |s|
    ensures forall i :: 0 <= i < |s| ==> r[i] == LowerChar(s[i])
  {
    seq(|s|, i requires 0 <= i < |s| => LowerChar(s[i]))
  }

  /** String.capitalize(): the first character upper-cased, the rest as it was. */
  function Capitalize(s: string): (r: string)
    ensures |r| == |s|
    ensures s != [] ==> r[0] == UpperChar(s[0]) && r[1..] == s[1..]
  {
    if s == [] then s else [UpperChar(s[0])] + s[1..]
  }

  predicate IsLowerWord(w: string) {
    forall i :: 0 <= i < |w| ==> 'a' <= w[i] <= 'z'
  }

  /** raw spells the lower-case word w with each letter in either case. */
  predicate AnyCaseOf(raw: string, w: string) {
    |raw| == |w| && forall i :: 0 <= i < |w| ==> raw[i] == w[i] || raw[i] == UpperChar(w[i])
  }

  /** Comparing lowercase(raw) with a lower-case word is comparing letters while ignoring their case. */
  lemma LowercaseEqualsWord(raw: string, w: string)
    requires IsLowerWord(w)
    ensures Lowercase(raw) == w <==> AnyCaseOf(raw, w)
  {
    if AnyCaseOf(raw, w) {
      forall i | 0 <= i < |w| ensures Lowercase(raw)[i] == w[i] {
        assert raw[i] == w[i] || raw[i] == UpperChar(w[i]);
      }
    }
    if Lowercase(raw) == w {
      forall i | 0 <= i < |w| ensures raw[i] == w[i] || raw[i] == UpperChar(w[i]) {
        assert LowerChar(raw[i]) == w[i];
      }
    }
  }

  // ---------------------------------------------------------------------------
  // Int.toString
  // ---------------------------------------------------------------------------

  predicate IsDigit(c: char) {
    '0' <= c <= '9'
  }

  function DigitChar(d: nat): (c: char)
    requires d < 10
    ensures IsDigit(c) && c as int - '0' as int == d
  {
    ('0' as int + d) as char
  }

  /** The decimal numeral of n, most significant digit first, without leading zeros. */
  function NatToDecimal(n: nat): (s: string)
    ensures |s| >= 1
    ensures forall i :: 0 <= i < |s| ==> IsDigit(s[i])
    ensures |s| > 1 ==> s[0] != '0'
  {
    if n < 10 then [DigitChar(n)] else NatToDecimal(n / 10) + [DigitChar(n % 10)]
  }

  /** The value of a string of decimal digits. */
  function DecimalValue(s: string): nat
    requires forall i :: 0 <= i < |s| ==> IsDigit(s[i])
  {
    if s == [] then 0
    else
      var last := s[|s| - 1];
      assert IsDigit(last);
      DecimalValue(s[..|s| - 1]) * 10 + (last as int - '0' as int)
  }

  /** Reading back the numeral gives the number. */
  lemma {:induction false} DecimalRoundTrip(n: nat)
    ensures DecimalValue(NatToDecimal(n)) == n
  {
    var s := NatToDecimal(n);
    if n >= 10 {
      DecimalRoundTrip(n / 10);
      assert s[..|s| - 1] == NatToDecimal(n / 10);
    }
  }

  /** Int.toString: a minus sign before the numeral of a negative number. */
  function IntToDecimal(n: int): (s: string)
    ensures |s| >= 1
    ensures s[0] == '-' <==> n < 0
    ensures n >= 0 ==> (forall i :: 0 <= i < |s| ==> IsDigit(s[i])) && DecimalValue(s) == n
    ensures n < 0 ==> (forall i :: 1 <= i < |s| ==> IsDigit(s[i])) && DecimalValue(s[1..]) == -n
  {
    if n < 0 then
      var digits := NatToDecimal(-n);
      DecimalRoundTrip(-n);
      assert ("-" + digits)[1..] == digits;
      "-" + digits
    else
      DecimalRoundTrip(n);
      NatToDecimal(n)
  }
}
