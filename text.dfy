/**
 * The Kotlin standard library as the app relies on it: `Int` arithmetic that wraps around, `split` on a
 * one-character delimiter, `toInt`, `Int.toString`, `padStart`, `hashCode` over UTF-16, `startsWith`,
 * `contains`, `isWhitespace`, `trim`, `isBlank` and `lowercase`.
 */
module Text {
  import opened Wrappers
  import Clock

  const IntMin: int := -0x8000_0000
  const IntMax: int := 0x7FFF_FFFF

  const TwoTo32: int := 0x1_0000_0000

  /** The value of a Kotlin `Int` expression: `x` wrapped around into 32 bits. */
  function Wrap32(x: int): (r: int)
    ensures IntMin <= r <= IntMax
    ensures (r - x) % TwoTo32 == 0
  {
    var y := x - IntMin;
    Clock.DivModUnique(-(y / TwoTo32), 0, TwoTo32);
    y % TwoTo32 + IntMin
  }

  /** An `Int` value in range is not changed by wrapping. */
  lemma Wrap32InRange(x: int)
    requires IntMin <= x <= IntMax
    ensures Wrap32(x) == x
  {
    Clock.DivModUnique(0, x - IntMin, TwoTo32);
  }

  /** `parts.joinToString(sep)` */
  function Join(parts: seq<string>, sep: char): string
  {
    if |parts| == 0 then ""
    else if |parts| == 1 then parts[0]
    else parts[0] + [sep] + Join(parts[1..], sep)
  }

  /** `s.split(sep)`: every part between delimiters, empty ones included; at least one part. */
  function Split(s: string, sep: char): (parts: seq<string>)
    ensures |parts| >= 1
  {
    if |s| == 0 then [""]
    else
      var rest := Split(s[1..], sep);
      if s[0] == sep then [""] + rest
      else [[s[0]] + rest[0]] + rest[1..]
  }

  /** The parts of a split hold no delimiter. */
  lemma {:induction false} SplitPartsFree(s: string, sep: char)
    ensures forall i :: 0 <= i < |Split(s, sep)| ==> sep !in Split(s, sep)[i]
  {
    if |s| > 0 {
      SplitPartsFree(s[1..], sep);
      var rest := Split(s[1..], sep);
      var parts := Split(s, sep);
      if s[0] != sep {
        assert forall i :: 1 <= i < |parts| ==> parts[i] == rest[i];
      } else {
        assert forall i :: 1 <= i < |parts| ==> parts[i] == rest[i - 1];
      }
    }
  }

  /** Joining the parts of a split gives the text back. */
  lemma {:induction false} SplitThenJoin(s: string, sep: char)
    ensures Join(Split(s, sep), sep) == s
  {
    if |s| > 0 {
      SplitThenJoin(s[1..], sep);
      var rest := Split(s[1..], sep);
      assert s == [s[0]] + s[1..];
      if s[0] != sep {
        var parts := Split(s, sep);
        assert parts[1..] == rest[1..];
        if |rest| > 1 {
          assert Join(parts, sep) == parts[0] + [sep] + Join(rest[1..], sep);
        }
      }
    }
  }

  /** Splitting a text joined from parts free of the delimiter gives the parts back. */
  lemma {:induction false} SplitJoin(parts: seq<string>, sep: char)
    requires |parts| >= 1
    requires forall i :: 0 <= i < |parts| ==> sep !in parts[i]
    ensures Split(Join(parts, sep), sep) == parts
  {
    if |parts| == 1 {
      SplitNoDelimiter(parts[0], sep);
    } else {
      SplitJoin(parts[1..], sep);
      SplitPrefix(parts[0], Join(parts[1..], sep), sep);
    }
  }

  lemma {:induction false} SplitNoDelimiter(s: string, sep: char)
    requires sep !in s
    ensures Split(s, sep) == [s]
  {
    if |s| > 0 {
      SplitNoDelimiter(s[1..], sep);
      assert s[0] != sep;
      assert [s[0]] + s[1..] == s;
    }
  }

  /** A delimiter-free prefix followed by the delimiter becomes the first part. */
  lemma {:induction false} SplitPrefix(a: string, b: string, sep: char)
    requires sep !in a
    ensures Split(a + [sep] + b, sep) == [a] + Split(b, sep)
  {
    if |a| == 0 {
      assert a + [sep] + b == [sep] + b;
      assert ([sep] + b)[1..] == b;
    } else {
      SplitPrefix(a[1..], b, sep);
      var s := a + [sep] + b;
      assert s[0] == a[0] && s[0] != sep;
      assert s[1..] == a[1..] + [sep] + b;
      var rest := Split(s[1..], sep);
      assert rest == [a[1..]] + Split(b, sep);
      assert [a[0]] + a[1..] == a;
    }
  }

  predicate IsDigit(c: char)
  {
    '0' <= c <= '9'
  }

  predicate AllDigits(s: string)
  {
    forall i :: 0 <= i < |s| ==> IsDigit(s[i])
  }

  function DigitValue(c: char): (d: nat)
    requires IsDigit(c)
    ensures d < 10
  {
    (c as int) - ('0' as int)
  }

  function DigitChar(d: nat): (c: char)
    requires d < 10
    ensures IsDigit(c) && DigitValue(c) == d
  {
    (('0' as int) + d) as char
  }

  /** The value of a string of decimal digits. */
  function DigitsValue(s: string): nat
    requires AllDigits(s)
  {
    if |s| == 0 then 0 else DigitsValue(s[..|s| - 1]) * 10 + DigitValue(s[|s| - 1])
  }

  /** An optional sign, then at least one ASCII digit: the whole number the text shows, of any size. */
  function ParseDecimal(s: string): Option<int>
  {
    if |s| == 0 then None
    else if s[0] == '-' || s[0] == '+' then
      if |s| == 1 || !AllDigits(s[1..]) then None
      else
        var d: int := DigitsValue(s[1..]);
        Some(if s[0] == '-' then -d else d)
    else if AllDigits(s) then Some(DigitsValue(s))
    else None
  }

  /**
   * `s.toInt()`: an optional sign, then at least one ASCII digit, and a value in Int range;
   * None where Kotlin throws NumberFormatException.
   */
  function ParseInt(s: string): (r: Option<int>)
    ensures r.Some? ==> IntMin <= r.value <= IntMax
    ensures r.Some? ==> ParseDecimal(s) == r
    ensures ParseDecimal(s).Some? && IntMin <= ParseDecimal(s).value <= IntMax ==> r == ParseDecimal(s)
  {
    var v := ParseDecimal(s);
    if v.Some? && IntMin <= v.value <= IntMax then v else None
  }

  /** `n.toString()` for a non-negative number: decimal digits without leading zeros. */
  function NatToString(n: nat): (s: string)
    ensures |s| >= 1 && AllDigits(s)
    ensures DigitsValue(s) == n
    ensures |s| > 1 ==> s[0] != '0'
  {
    if n < 10 then [DigitChar(n)]
    else
      var s := NatToString(n / 10) + [DigitChar(n % 10)];
      assert s[..|s| - 1] == NatToString(n / 10);
      s
  }

  /** `s.padStart(2, '0')` */
  function PadStart2(s: string): (r: string)
    ensures |r| == if |s| >= 2 then |s| else 2
    ensures r[|r| - |s|..] == s
    ensures forall i :: 0 <= i < |r| - |s| ==> r[i] == '0'
  {
    if |s| >= 2 then s else seq(2 - |s|, _ => '0') + s
  }

  /** Leading zeros do not change the value of a digit string. */
  lemma {:induction false} LeadingZero(s: string)
    requires AllDigits(s)
    ensures AllDigits("0" + s) && DigitsValue("0" + s) == DigitsValue(s)
  {
    if |s| > 0 {
      LeadingZero(s[..|s| - 1]);
      assert ("0" + s)[..|"0" + s| - 1] == "0" + s[..|s| - 1];
    }
  }

  /** A zero-padded decimal reads back as the number. */
  lemma ParsePadded(n: nat)
    requires n <= IntMax
    ensures ParseInt(PadStart2(NatToString(n))) == Some(n)
  {
    var s := NatToString(n);
    if |s| < 2 {
      LeadingZero(s);
      assert PadStart2(s) == "0" + s;
    }
  }

  /** `n.toString().toInt() == n` */
  lemma ParseShown(n: nat)
    requires n <= IntMax
    ensures ParseInt(NatToString(n)) == Some(n)
  {
  }

  /** `n.toString().padStart(2, '0')` for a number below 100: its tens digit, then its units digit. */
  function TwoDigits(n: nat): string
    requires n < 100
  {
    [DigitChar(n / 10), DigitChar(n % 10)]
  }

  /** TwoDigits is what padStart(2, '0') makes of toString. */
  lemma TwoDigitsPadded(n: nat)
    requires n < 100
    ensures TwoDigits(n) == PadStart2(NatToString(n))
  {
    if n >= 10 {
      assert NatToString(n) == NatToString(n / 10) + [DigitChar(n % 10)];
    }
  }

  /** Two digits read back as the number they show. */
  lemma ParseTwoDigits(n: nat)
    requires n < 100
    ensures AllDigits(TwoDigits(n))
    ensures ParseInt(TwoDigits(n)) == Some(n)
  {
    var s := TwoDigits(n);
    assert s[..1][..0] == [];
    assert DigitsValue(s[..1]) == n / 10;
  }

  /** `"$i"` for a Kotlin Int: a minus sign before the digits of a negative number. */
  function IntToString(i: int): string
  {
    if i < 0 then "-" + NatToString(-i) else NatToString(i)
  }

  /** The decimal text of any whole number reads back as that number. */
  lemma DecimalRoundTrip(i: int)
    ensures ParseDecimal(IntToString(i)) == Some(i)
  {
    if i < 0 {
      var s := IntToString(i);
      assert s[1..] == NatToString(-i);
    } else {
      assert IsDigit(NatToString(i)[0]);
    }
  }

  /** `i.toString().toInt() == i` for every Int, the negative ones included. */
  lemma ParseIntToString(i: int)
    requires IntMin <= i <= IntMax
    ensures ParseInt(IntToString(i)) == Some(i)
  {
    DecimalRoundTrip(i);
  }

  // ---------------------------------------------------------------- Java strings as UTF-16

  const Plane1: int := 0x1_0000

  /** The UTF-16 code units of a character: itself below U+10000, otherwise its surrogate pair. */
  function Utf16Units(c: char): (u: seq<int>)
    ensures |u| == if (c as int) < Plane1 then 1 else 2
    ensures forall k :: 0 <= k < |u| ==> 0 <= u[k] < Plane1
  {
    if (c as int) < Plane1 then [c as int]
    else
      var v := c as int - Plane1;
      [0xD800 + v / 0x400, 0xDC00 + v % 0x400]
  }

  /**
   * A character outside the Basic Multilingual Plane is a high surrogate then a low surrogate,
   * from which it is recovered.
   */
  lemma SurrogatePairDecodes(c: char)
    requires (c as int) >= Plane1
    ensures var u := Utf16Units(c);
      && 0xD800 <= u[0] <= 0xDBFF && 0xDC00 <= u[1] <= 0xDFFF
      && Plane1 + (u[0] - 0xD800) * 0x400 + (u[1] - 0xDC00) == c as int
  {
  }

  /** The code units of a Java string: the characters' units, in order. */
  function Utf16(s: string): (u: seq<int>)
    ensures |u| >= |s|
  {
    if |s| == 0 then [] else Utf16(s[..|s| - 1]) + Utf16Units(s[|s| - 1])
  }

  /** In the Basic Multilingual Plane a string's code units are its characters. */
  lemma {:induction false} Utf16OfBmp(s: string)
    requires forall i :: 0 <= i < |s| ==> (s[i] as int) < Plane1
    ensures Utf16(s) == seq(|s|, i requires 0 <= i < |s| => s[i] as int)
  {
    if |s| > 0 {
      Utf16OfBmp(s[..|s| - 1]);
    }
  }

  /** `String.hashCode()`: h := 31 * h + u over the UTF-16 code units, as an Int. */
  function HashCode(s: string): (h: int)
    ensures IntMin <= h <= IntMax
  {
    HashUnits(Utf16(s))
  }

  function HashUnits(u: seq<int>): (h: int)
    ensures IntMin <= h <= IntMax
  {
    if |u| == 0 then 0 else Wrap32(31 * HashUnits(u[..|u| - 1]) + u[|u| - 1])
  }

  function Pow31(n: nat): (r: nat)
    ensures r >= 1
  {
    if n == 0 then 1 else 31 * Pow31(n - 1)
  }

  /** u[0]*31^(n-1) + u[1]*31^(n-2) + ... + u[n-1], without wrapping around. */
  function HashPolynomial(u: seq<int>): int
  {
    if |u| == 0 then 0 else u[0] * Pow31(|u| - 1) + HashPolynomial(u[1..])
  }

  lemma Horner(head: int, p: int, rest: int, c: int)
    ensures head * (31 * p) + (31 * rest + c) == 31 * (head * p + rest) + c
  {
  }

  /** Appending a unit multiplies the polynomial by 31 and adds the unit. */
  lemma {:induction false} HashPolynomialAppend(u: seq<int>, c: int)
    ensures HashPolynomial(u + [c]) == 31 * HashPolynomial(u) + c
  {
    if |u| > 0 {
      HashPolynomialAppend(u[1..], c);
      assert (u + [c])[1..] == u[1..] + [c];
      assert HashPolynomial(u + [c]) == u[0] * Pow31(|u|) + HashPolynomial(u[1..] + [c]);
      Horner(u[0], Pow31(|u| - 1), HashPolynomial(u[1..]), c);
    }
  }

  /** Two values that differ by a multiple of 2^32 wrap to the same Int. */
  lemma Wrap32Congruent(x: int, y: int, k: int)
    requires x - y == k * TwoTo32
    ensures Wrap32(x) == Wrap32(y)
  {
    var wx := Wrap32(x);
    var wy := Wrap32(y);
    var a := (wx - x) / TwoTo32;
    var b := (wy - y) / TwoTo32;
    assert wx - x == a * TwoTo32;
    assert wy - y == b * TwoTo32;
    assert wx - wy == (a - b + k) * TwoTo32;
  }

  /** The hash of code units is their polynomial in base 31, wrapped around into an Int. */
  lemma {:induction false} HashUnitsIsPolynomial(u: seq<int>)
    ensures HashUnits(u) == Wrap32(HashPolynomial(u))
  {
    if |u| > 0 {
      var init := u[..|u| - 1];
      var c := u[|u| - 1];
      HashUnitsIsPolynomial(init);
      assert u == init + [c];
      HashPolynomialAppend(init, c);
      var p := HashPolynomial(init);
      var w := Wrap32(p);
      var k := (w - p) / TwoTo32;
      assert w - p == k * TwoTo32;
      assert (31 * w + c) - (31 * p + c) == (31 * k) * TwoTo32;
      Wrap32Congruent(31 * w + c, 31 * p + c, 31 * k);
    }
  }

  /** The hash code is the polynomial of the string's UTF-16 code units in base 31, wrapped around into an Int. */
  lemma HashCodeIsPolynomial(s: string)
    ensures HashCode(s) == Wrap32(HashPolynomial(Utf16(s)))
  {
    HashUnitsIsPolynomial(Utf16(s));
  }

  /** `s.startsWith(prefix)` */
  predicate StartsWith(s: string, prefix: string)
  {
    |prefix| <= |s| && s[..|prefix|] == prefix
  }

  /** `sub` occurs in `s` at position `i`. */
  predicate OccursAt(s: string, sub: string, i: int)
  {
    0 <= i <= |s| - |sub| && s[i..i + |sub|] == sub
  }

  /** `s.contains(sub)`: `sub` occurs at some position of `s`. */
  predicate Contains(s: string, sub: string)
  {
    exists i :: 0 <= i <= |s| - |sub| && OccursAt(s, sub, i)
  }

  /** A string that contains `sub` contains every part of `sub`. */
  lemma ContainsPart(s: string, sub: string, from: int, to: int)
    requires Contains(s, sub) && 0 <= from <= to <= |sub|
    ensures Contains(s, sub[from..to])
  {
    var i :| 0 <= i <= |s| - |sub| && OccursAt(s, sub, i);
    assert s[i..i + |sub|] == sub;
    forall k | 0 <= k < to - from
      ensures s[i + from..i + to][k] == sub[from..to][k]
    {
      assert s[i + from + k] == sub[from + k];
    }
    assert s[i + from..i + to] == sub[from..to];
    assert OccursAt(s, sub[from..to], i + from);
  }

  // ---------------------------------------------------------------- Kotlin whitespace

  /**
   * `Char.isWhitespace()` on the JVM: `Character.isWhitespace` or `Character.isSpaceChar`, that is
   * tab to carriage return, the four information separators U+001C to U+001F, the space
   * separators (space, no-break space, U+1680, U+2000 to U+200A, U+202F, U+205F, U+3000) and the
   * line and paragraph separators U+2028 and U+2029. Next line (U+0085) is not whitespace.
   */
  predicate IsWhitespace(c: char)
  {
    || '\t' <= c <= '\r' || '\U{1C}' <= c <= ' ' || c == '\U{A0}' || c == '\U{1680}'
    || '\U{2000}' <= c <= '\U{200A}' || c == '\U{2028}' || c == '\U{2029}' || c == '\U{202F}'
    || c == '\U{205F}' || c == '\U{3000}'
  }

  /** `isBlank()`: every character is whitespace. */
  predicate IsBlank(s: string)
  {
    forall i :: 0 <= i < |s| ==> IsWhitespace(s[i])
  }

  /** `trimStart()`: the suffix left after the leading whitespace. */
  function TrimStart(s: string): (r: string)
    ensures |r| <= |s| && r == s[|s| - |r|..]
    ensures forall i :: 0 <= i < |s| - |r| ==> IsWhitespace(s[i])
    ensures |r| > 0 ==> !IsWhitespace(r[0])
    ensures IsBlank(s) <==> r == []
  {
    if |s| > 0 && IsWhitespace(s[0]) then
      var r := TrimStart(s[1..]);
      assert forall i :: 1 <= i < |s| ==> s[i] == s[1..][i - 1];
      r
    else s
  }

  /** `trimEnd()`: the prefix left before the trailing whitespace. */
  function TrimEnd(s: string): (r: string)
    ensures |r| <= |s| && r == s[..|r|]
    ensures forall i :: |r| <= i < |s| ==> IsWhitespace(s[i])
    ensures |r| > 0 ==> !IsWhitespace(r[|r| - 1])
    ensures IsBlank(s) <==> r == []
  {
    if |s| > 0 && IsWhitespace(s[|s| - 1]) then
      var r := TrimEnd(s[..|s| - 1]);
      assert forall i :: 0 <= i < |s| - 1 ==> s[i] == s[..|s| - 1][i];
      r
    else s
  }

  /** `r` is `s` from position `k` on, with only whitespace cut before and after it. */
  predicate TrimmedAt(s: string, r: string, k: int)
  {
    && 0 <= k <= |s| - |r| && r == s[k..k + |r|]
    && (forall i :: 0 <= i < k ==> IsWhitespace(s[i]))
    && (forall i :: k + |r| <= i < |s| ==> IsWhitespace(s[i]))
  }

  /** `trim()`: the middle of the text, with whitespace cut from both ends and nothing else. */
  function Trim(s: string): (r: string)
    ensures exists k :: TrimmedAt(s, r, k)
    ensures |r| > 0 ==> !IsWhitespace(r[0]) && !IsWhitespace(r[|r| - 1])
    ensures IsBlank(s) <==> r == []
  {
    var t := TrimStart(s);
    var r := TrimEnd(t);
    CutBothEnds(s, t, r);
    BlankSuffix(s, t);
    r
  }

  /** A prefix of a suffix, with only whitespace cut before and after, is `s` trimmed at both ends. */
  lemma CutBothEnds(s: string, t: string, r: string)
    requires |t| <= |s| && t == s[|s| - |t|..]
    requires forall i :: 0 <= i < |s| - |t| ==> IsWhitespace(s[i])
    requires |r| <= |t| && r == t[..|r|]
    requires forall i :: |r| <= i < |t| ==> IsWhitespace(t[i])
    ensures TrimmedAt(s, r, |s| - |t|)
  {
    var k := |s| - |t|;
    forall j | 0 <= j < |r|
      ensures r[j] == s[k + j]
    {
      assert r[j] == t[j];
    }
    forall i | k + |r| <= i < |s|
      ensures IsWhitespace(s[i])
    {
      assert s[i] == t[i - k];
    }
  }

  /** A suffix whose cut-off start is whitespace, and which does not start with whitespace, is blank exactly when `s` is. */
  lemma BlankSuffix(s: string, t: string)
    requires |t| <= |s| && t == s[|s| - |t|..]
    requires forall i :: 0 <= i < |s| - |t| ==> IsWhitespace(s[i])
    requires |t| > 0 ==> !IsWhitespace(t[0])
    ensures IsBlank(s) <==> IsBlank(t)
  {
    if |t| > 0 {
      assert !IsWhitespace(s[|s| - |t|]);
    }
  }

  /** `c.lowercaseChar()` on the ASCII letters; other characters are kept. */
  function LowerChar(c: char): (r: char)
    ensures !('A' <= r <= 'Z')
    ensures !('A' <= c <= 'Z') ==> r == c
  {
    if 'A' <= c <= 'Z' then (c as int + 32) as char else c
  }

  /** `s.lowercase()`: no upper-case ASCII letter is left, and nothing else changes. */
  function Lower(s: string): (r: string)
    ensures |r| == |s|
    ensures forall i :: 0 <= i < |s| ==> r[i] == LowerChar(s[i])
  {
    seq(|s|, i requires 0 <= i < |s| => LowerChar(s[i]))
  }
}
