/** The JavaScript string primitives the record model relies on, on
    strings seen as sequences of Unicode characters: the `\s` and `\d`
    character classes, `trim`, `toLowerCase`, `includes`, `padStart` and
    `String(n)` for a natural number. */
module Text {
  import opened Seqs

  /** The `\s` class of JavaScript regular expressions, which is also the set
      `trim` removes: WhiteSpace and LineTerminator of ECMAScript. */
  predicate IsWhitespace(c: char)
  {
    var n := c as int;
    (0x09 <= n <= 0x0D) || n == 0x20 || n == 0xA0 || n == 0x1680
    || (0x2000 <= n <= 0x200A) || n == 0x2028 || n == 0x2029
    || n == 0x202F || n == 0x205F || n == 0x3000 || n == 0xFEFF
  }

  predicate NotWhitespace(c: char) { !IsWhitespace(c) }

  /** The common separators belong to the class; digits and ASCII letters
      do not, and neither does the zero-width space U+200B. */
  lemma WhitespaceClass(c: char)
    ensures c == ' ' || c == '\t' || c == '\n' || c == '\r' || c == '\U{00A0}' || c == '\U{FEFF}' ==> IsWhitespace(c)
    ensures IsDigit(c) || 'a' <= c <= 'z' || 'A' <= c <= 'Z' || c == '\U{200B}' ==> !IsWhitespace(c)
  {
  }

  /** A string with no `\s` character in it. */
  predicate NoWhitespace(s: string)
  {
    forall i :: 0 <= i < |s| ==> !IsWhitespace(s[i])
  }

  /** The `\d` class: an ASCII decimal digit. */
  predicate IsDigit(c: char) { '0' <= c <= '9' }

  /** `s.replace(/\s/g, "")`: the characters of `s` that are not
      whitespace, all of them and in order; a string without whitespace is
      returned unchanged. */
  function StripWhitespace(s: string): (r: string)
    ensures NoWhitespace(r)
    ensures IsSubseq(r, s) && |r| == CountWhere(s, NotWhitespace)
    ensures NoWhitespace(s) ==> r == s
  {
    if forall i :: 0 <= i < |s| ==> NotWhitespace(s[i]) then
      FilterKeepsAll(s, NotWhitespace);
      Filter(s, NotWhitespace)
    else
      Filter(s, NotWhitespace)
  }

  /** `s.replace(/\D/g, "")`: the digits of `s`, all of them and in order;
      a string of digits is returned unchanged. */
  function DigitsOnly(s: string): (r: string)
    ensures forall i :: 0 <= i < |r| ==> IsDigit(r[i])
    ensures IsSubseq(r, s) && |r| == CountWhere(s, IsDigit)
    ensures (forall i :: 0 <= i < |s| ==> IsDigit(s[i])) ==> r == s
  {
    if forall i :: 0 <= i < |s| ==> IsDigit(s[i]) then
      FilterKeepsAll(s, IsDigit);
      Filter(s, IsDigit)
    else
      Filter(s, IsDigit)
  }

  predicate AllWhitespace(s: string)
  {
    forall i :: 0 <= i < |s| ==> IsWhitespace(s[i])
  }

  /** Leading whitespace removed: `r` is a suffix of `s`, what was cut off is
      all whitespace, and `r` does not start with whitespace. */
  function TrimStart(s: string): (r: string)
    ensures |r| <= |s| && r == s[|s| - |r|..]
    ensures AllWhitespace(s[..|s| - |r|])
    ensures r != [] ==> !IsWhitespace(r[0])
  {
    if s != [] && IsWhitespace(s[0]) then TrimStart(s[1..]) else s
  }

  /** Trailing whitespace removed: `r` is a prefix of `s`, what was cut off is
      all whitespace, and `r` does not end with whitespace. */
  function TrimEnd(s: string): (r: string)
    ensures |r| <= |s| && r == s[..|r|]
    ensures AllWhitespace(s[|r|..])
    ensures r != [] ==> !IsWhitespace(r[|r| - 1])
  {
    if s != [] && IsWhitespace(s[|s| - 1]) then
      var r := TrimEnd(s[..|s| - 1]);
      assert s[|r|..] == s[..|s| - 1][|r|..] + [s[|s| - 1]];
      r
    else s
  }

  /** `r` is the slice of `s` that starts at `a`, and what lies before and
      after it is all whitespace. */
  predicate CutAround(s: string, r: string, a: int)
  {
    0 <= a <= |s| - |r| && s[a..a + |r|] == r && AllWhitespace(s[..a]) && AllWhitespace(s[a + |r|..])
  }

  /** String.prototype.trim: `r` is a slice of `s` (starting after the
      leading whitespace) and what was cut off on either side is all
      whitespace; `r` neither starts nor ends with whitespace. */
  function Trim(s: string): (r: string)
    ensures CutAround(s, r, |s| - |TrimStart(s)|)
    ensures r != [] ==> !IsWhitespace(r[0]) && !IsWhitespace(r[|r| - 1])
  {
    var t := TrimStart(s);
    var r := TrimEnd(t);
    TrimCut(s, t, r);
    r
  }

  /** A prefix cut off a suffix is a slice, with whitespace around it. */
  lemma TrimCut(s: string, t: string, r: string)
    requires |t| <= |s| && t == s[|s| - |t|..] && AllWhitespace(s[..|s| - |t|])
    requires |r| <= |t| && r == t[..|r|] && AllWhitespace(t[|r|..])
    ensures CutAround(s, r, |s| - |t|)
  {
    var a := |s| - |t|;
    forall i | 0 <= i < |r| ensures s[a + i] == r[i] {
      assert s[a + i] == t[i];
    }
    forall i | a + |r| <= i < |s| ensures IsWhitespace(s[i]) {
      assert s[i] == t[i - a] == t[|r|..][i - a - |r|];
    }
    assert s[a..a + |r|] == r;
  }

  /** `s.trim()` is falsy (the empty string) exactly when every character of
      `s` is whitespace; so a string is accepted by a `trim()` guard iff it
      holds at least one non-whitespace character. */
  lemma TrimEmptyIff(s: string)
    ensures Trim(s) == [] <==> AllWhitespace(s)
  {
  }

  /** `toLowerCase` on one character; only the ASCII letters are mapped. */
  function LowerChar(c: char): char
  {
    if 'A' <= c <= 'Z' then (c as int + 32) as char else c
  }

  /** String.prototype.toLowerCase, on the ASCII range. */
  function Lower(s: string): (r: string)
    ensures |r| == |s|
  {
    seq(|s|, i requires 0 <= i < |s| => LowerChar(s[i]))
  }

  /** No ASCII capital is left, and every character that is not one is
      kept as it was. */
  lemma LowerShape(s: string)
    ensures forall i :: 0 <= i < |s| ==> !('A' <= Lower(s)[i] <= 'Z')
    ensures forall i :: 0 <= i < |s| && !('A' <= s[i] <= 'Z') ==> Lower(s)[i] == s[i]
    ensures forall i :: 0 <= i < |s| && 'A' <= s[i] <= 'Z' ==> Lower(s)[i] == (s[i] as int + 32) as char
  {
  }

  /** `a` and `b` are the same character, or the same ASCII letter once as a
      capital and once in lower case. */
  predicate SameLetterUpToCase(a: char, b: char)
  {
    a == b
    || ('A' <= a <= 'Z' && b as int == a as int + 32)
    || ('A' <= b <= 'Z' && a as int == b as int + 32)
  }

  /** Two strings that differ only in the case of ASCII letters lower-case
      alike. */
  lemma LowerUpToCase(v: string, w: string)
    requires |v| == |w|
    requires forall i :: 0 <= i < |v| ==> SameLetterUpToCase(v[i], w[i])
    ensures Lower(v) == Lower(w)
  {
    assert forall i :: 0 <= i < |v| ==> LowerChar(v[i]) == LowerChar(w[i]);
  }

  /** Lowering twice is lowering once; and a string and its lower-cased
      copy compare equal case-insensitively. */
  lemma LowerIdempotent(s: string)
    ensures Lower(Lower(s)) == Lower(s)
  {
    assert forall i :: 0 <= i < |s| ==> LowerChar(LowerChar(s[i])) == LowerChar(s[i]);
  }

  /** String.prototype.includes: `needle` occurs in `hay` at some index
      (ContainsIff); every string contains the empty string. */
  predicate Contains(hay: string, needle: string)
    ensures needle == [] ==> Contains(hay, needle)
  {
    needle <= hay || (hay != [] && Contains(hay[1..], needle))
  }

  /** `needle` is the slice of `hay` that starts at `k`. */
  predicate OccursAt(hay: string, needle: string, k: int)
  {
    0 <= k <= |hay| - |needle| && hay[k..k + |needle|] == needle
  }

  /** `Contains` is the textbook definition of a substring: `needle` equals
      the slice of `hay` at some position. */
  lemma {:induction false} ContainsIff(hay: string, needle: string)
    ensures Contains(hay, needle) <==> exists k :: OccursAt(hay, needle, k)
  {
    if needle <= hay {
      assert OccursAt(hay, needle, 0);
    } else if hay != [] {
      ContainsIff(hay[1..], needle);
      forall k | OccursAt(hay[1..], needle, k) ensures OccursAt(hay, needle, k + 1) {
        assert hay[k + 1..k + 1 + |needle|] == hay[1..][k..k + |needle|];
      }
      forall k | OccursAt(hay, needle, k) ensures OccursAt(hay[1..], needle, k - 1) {
        OccursLater(hay, needle, k);
      }
    } else {
      assert forall k :: !OccursAt(hay, needle, k);
    }
  }

  /** Where `needle` is not a prefix, an occurrence starts later and is an
      occurrence in the tail. */
  lemma OccursLater(hay: string, needle: string, k: int)
    requires OccursAt(hay, needle, k) && !(needle <= hay)
    ensures k > 0 && OccursAt(hay[1..], needle, k - 1)
  {
    assert hay[0..|needle|] == hay[..|needle|];
    assert hay[1..][k - 1..k - 1 + |needle|] == hay[k..k + |needle|];
  }

  /** `k` copies of `c`. */
  function Repeat(c: char, k: nat): (r: string)
    ensures |r| == k && forall i :: 0 <= i < k ==> r[i] == c
  {
    if k == 0 then [] else [c] + Repeat(c, k - 1)
  }

  /** `s.padStart(width, [c])`: prefixed with copies of `c` up to `width`
      characters; a string already as long as `width` is returned whole
      (padStart never truncates). */
  function PadStart(s: string, width: nat, c: char): (r: string)
    ensures |r| == if |s| >= width then |s| else width
    ensures r[|r| - |s|..] == s
    ensures forall i :: 0 <= i < |r| - |s| ==> r[i] == c
  {
    if |s| >= width then s else Repeat(c, width - |s|) + s
  }

  function DigitChar(d: nat): (c: char)
    requires d < 10
    ensures IsDigit(c)
  {
    ('0' as int + d) as char
  }

  function DigitValue(c: char): nat
    requires IsDigit(c)
  {
    c as int - '0' as int
  }

  /** `String(n)` for a natural number: its decimal digits, with no leading
      zero unless `n` is zero. */
  function NatToString(n: nat): (r: string)
    ensures r != [] && forall i :: 0 <= i < |r| ==> IsDigit(r[i])
    ensures r[0] == '0' ==> n == 0 && r == "0"
  {
    if n < 10 then [DigitChar(n)] else NatToString(n / 10) + [DigitChar(n % 10)]
  }

  predicate AllDigits(s: string)
  {
    forall i :: 0 <= i < |s| ==> IsDigit(s[i])
  }

  /** The number a string of decimal digits denotes (leading zeros allowed). */
  function DecimalValue(s: string): nat
    requires AllDigits(s)
  {
    if s == [] then 0 else 10 * DecimalValue(s[..|s| - 1]) + DigitValue(s[|s| - 1])
  }

  /** Reading back the digits that `String(n)` writes gives `n`. */
  lemma {:induction false} DecimalValueOfNatToString(n: nat)
    ensures DecimalValue(NatToString(n)) == n
  {
    var r := NatToString(n);
    if n >= 10 {
      assert r[..|r| - 1] == NatToString(n / 10);
      DecimalValueOfNatToString(n / 10);
    }
  }

  /** Leading zeros do not change the value of a digit string. */
  lemma {:induction false} DecimalValueLeadingZeros(k: nat, s: string)
    requires AllDigits(s)
    ensures AllDigits(Repeat('0', k) + s)
    ensures DecimalValue(Repeat('0', k) + s) == DecimalValue(s)
    decreases |s|, k
  {
    var z := Repeat('0', k);
    if s == [] {
      if k > 0 {
        assert (z + s)[..|z + s| - 1] == Repeat('0', k - 1) + s;
        DecimalValueLeadingZeros(k - 1, s);
      }
    } else {
      var init := s[..|s| - 1];
      assert (z + s)[..|z + s| - 1] == z + init;
      DecimalValueLeadingZeros(k, init);
    }
  }
}
