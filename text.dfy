/**
 * Text helpers shared by the monitoring components: decimal rendering of
 * numbers as JavaScript's `String(n)` prints them, joining, searching and
 * ASCII case mapping.
 *
 * Numbers. The source works on IEEE doubles. The model represents every such
 * number as an exact count of thousandths (`Milli`): 1 is `1000`, 0.005 is `5`.
 * The default histogram boundaries 0.005 .. 10 are all exact in this scale.
 */
module Text {
  import opened Wrappers

  /** A JavaScript number, as an exact multiple of 0.001. */
  type Milli = int

  /** The value `n` in milli units. */
  function Whole(n: int): Milli { n * 1000 }

  function Digit(d: nat): (c: char)
    requires d < 10
    ensures '0' <= c <= '9'
  {
    ('0' as int + d) as char
  }

  predicate IsDigit(c: char) { '0' <= c <= '9' }

  /** Decimal digits of `n`, without leading zeros. */
  function NatText(n: nat): (s: string)
    ensures 1 <= |s|
    ensures forall i | 0 <= i < |s| :: IsDigit(s[i])
    ensures s[0] == '0' ==> n == 0
    decreases n
  {
    if n < 10 then [Digit(n)] else NatText(n / 10) + [Digit(n % 10)]
  }

  /** The value of a string of decimal digits. */
  function DigitsValue(s: string): nat
    requires forall i | 0 <= i < |s| :: IsDigit(s[i])
  {
    if s == [] then 0
    else
      var last := s[|s| - 1];
      assert IsDigit(last);
      DigitsValue(s[..|s| - 1]) * 10 + (last as int - '0' as int)
  }

  /** Reading back the digits that `NatText` prints gives the number again. */
  lemma {:induction false} NatTextRoundTrip(n: nat)
    ensures DigitsValue(NatText(n)) == n
    decreases n
  {
    if n >= 10 {
      NatTextRoundTrip(n / 10);
      var s := NatText(n);
      assert s[..|s| - 1] == NatText(n / 10);
    }
  }

  /** `String(n)` for an integer `n`. */
  function IntText(n: int): string {
    if n < 0 then "-" + NatText(-n) else NatText(n)
  }

  /** `s` with its trailing '0' characters removed. */
  function TrimZeros(s: string): (r: string)
    ensures |r| <= |s| && r == s[..|r|]
    ensures r == [] || r[|r| - 1] != '0'
    ensures forall i | |r| <= i < |s| :: s[i] == '0'
  {
    if s == [] || s[|s| - 1] != '0' then s else TrimZeros(s[..|s| - 1])
  }

  /** `String(x)` for a non-negative number given in thousandths. */
  function MagnitudeText(m: nat): (s: string)
    ensures 1 <= |s|
  {
    var whole, frac := m / 1000, m % 1000;
    if frac == 0 then NatText(whole)
    else NatText(whole) + "." + TrimZeros([Digit(frac / 100), Digit(frac / 10 % 10), Digit(frac % 10)])
  }

  /**
   * `String(x)` for a number given in thousandths: an optional '-', the whole
   * part, and the fractional digits without trailing zeros (no '.' for whole
   * numbers).
   */
  function NumText(m: Milli): (s: string)
    ensures 1 <= |s|
    ensures m % 1000 == 0 ==> '.' !in s
    ensures (m < 0) == (s[0] == '-')
  {
    var s := if m < 0 then "-" + MagnitudeText(-m) else MagnitudeText(m);
    assert m % 1000 == 0 ==> (if m < 0 then -m else m) % 1000 == 0;
    s
  }

  /** The position of the first `c` in `s`, or `|s|` when there is none. */
  function IndexOf(s: string, c: char): (i: nat)
    ensures i <= |s|
    ensures i < |s| ==> s[i] == c
    ensures forall j | 0 <= j < i :: s[j] != c
  {
    if s == [] then 0 else if s[0] == c then 0 else 1 + IndexOf(s[1..], c)
  }

  predicate AllDigits(s: string) {
    forall i | 0 <= i < |s| :: IsDigit(s[i])
  }

  function Pow10(k: nat): nat {
    if k == 0 then 1 else 10 * Pow10(k - 1)
  }

  /**
   * Reading a plain decimal without sign: whole digits, then optionally '.'
   * and one to three fractional digits. `None` for any other text.
   */
  function ReadMagnitude(s: string): Option<nat> {
    var i := IndexOf(s, '.');
    var whole := s[..i];
    if whole == [] || !AllDigits(whole) then None
    else if i == |s| then Some(DigitsValue(whole) * 1000)
    else
      var frac := s[i + 1..];
      if frac == [] || |frac| > 3 || !AllDigits(frac) then None
      else Some(DigitsValue(whole) * 1000 + DigitsValue(frac) * Pow10(3 - |frac|))
  }

  /** Reading a decimal with an optional leading '-' back into thousandths. */
  function ReadNum(s: string): Option<Milli> {
    if s != [] && s[0] == '-' then
      match ReadMagnitude(s[1..])
      case Some(v) => Some(-(v as int))
      case None => None
    else ReadMagnitude(s)
  }

  /** The value of three digits. */
  lemma ThreeDigits(a: char, b: char, c: char)
    requires IsDigit(a) && IsDigit(b) && IsDigit(c)
    ensures var v := (x: char) => x as int - '0' as int;
      && DigitsValue([a]) == v(a)
      && DigitsValue([a, b]) == v(a) * 10 + v(b)
      && DigitsValue([a, b, c]) == (v(a) * 10 + v(b)) * 10 + v(c)
  {
    assert [a, b, c][..2] == [a, b];
    assert [a, b][..1] == [a];
    assert [a][..0] == [];
  }

  lemma DigitValue(k: nat)
    requires k < 10
    ensures Digit(k) as int - '0' as int == k
  {
  }

  /** The fractional digits `MagnitudeText` prints read back as the fraction. */
  lemma FractionRoundTrip(f: nat)
    requires 0 < f < 1000
    ensures var t := TrimZeros([Digit(f / 100), Digit(f / 10 % 10), Digit(f % 10)]);
      && 1 <= |t| <= 3 && AllDigits(t) && DigitsValue(t) * Pow10(3 - |t|) == f
  {
    var x, y, z := f / 100, f / 10 % 10, f % 10;
    assert f == x * 100 + y * 10 + z;
    var a, b, c := Digit(x), Digit(y), Digit(z);
    DigitValue(x);
    DigitValue(y);
    DigitValue(z);
    var d := [a, b, c];
    ThreeDigits(a, b, c);
    if z != 0 {
      assert TrimZeros(d) == d;
    } else if y != 0 {
      assert d[..2] == [a, b];
      assert TrimZeros(d) == [a, b];
      assert Pow10(1) == 10;
    } else {
      assert d[..2] == [a, b] && [a, b][..1] == [a];
      assert TrimZeros(d) == [a];
      assert Pow10(2) == 100;
    }
  }

  /** Digits contain no '.', so the first '.' after them is found past them. */
  lemma {:induction false} IndexAfterDigits(w: string, rest: string)
    requires AllDigits(w)
    ensures IndexOf(w + rest, '.') == |w| + IndexOf(rest, '.')
    decreases |w|
  {
    if w == [] {
      assert w + rest == rest;
    } else {
      assert IsDigit(w[0]) && (w + rest)[0] == w[0];
      assert (w + rest)[1..] == w[1..] + rest;
      IndexAfterDigits(w[1..], rest);
    }
  }

  /** `MagnitudeText` for a number with a fractional part. */
  lemma FractionalRoundTrip(n: nat)
    requires n % 1000 != 0
    ensures ReadMagnitude(MagnitudeText(n)) == Some(n)
  {
    var w := NatText(n / 1000);
    NatTextRoundTrip(n / 1000);
    var t := TrimZeros([Digit(n % 1000 / 100), Digit(n % 1000 / 10 % 10), Digit(n % 1000 % 10)]);
    FractionRoundTrip(n % 1000);
    var s := MagnitudeText(n);
    assert s == w + ("." + t);
    IndexAfterDigits(w, "." + t);
    assert s[..|w|] == w && s[|w| + 1..] == t;
  }

  lemma MagnitudeRoundTrip(n: nat)
    ensures ReadMagnitude(MagnitudeText(n)) == Some(n)
    ensures IsDigit(MagnitudeText(n)[0])
  {
    var w := NatText(n / 1000);
    assert MagnitudeText(n)[0] == w[0];
    if n % 1000 == 0 {
      NatTextRoundTrip(n / 1000);
      IndexAfterDigits(w, "");
      assert w + "" == w && w[..|w|] == w;
    } else {
      FractionalRoundTrip(n);
    }
  }

  /** Reading back the text `NumText` prints gives the number again. */
  lemma NumTextRoundTrip(m: Milli)
    ensures ReadNum(NumText(m)) == Some(m)
  {
    var t := MagnitudeText(if m < 0 then -m else m);
    assert ReadMagnitude(t) == Some(if m < 0 then -m else m) && t[0] != '-' by {
      MagnitudeRoundTrip(if m < 0 then -m else m);
    }
    ReadSign(t);
  }

  /** `ReadNum` on a text without sign, and on the same text after a '-'. */
  lemma ReadSign(t: string)
    requires t != [] && t[0] != '-'
    ensures ReadNum(t) == ReadMagnitude(t)
    ensures ReadMagnitude(t).Some? ==> ReadNum("-" + t) == Some(-(ReadMagnitude(t).value as int))
  {
    assert ("-" + t)[1..] == t;
  }

  /** `parts.join(sep)`. */
  function Join(parts: seq<string>, sep: string): string {
    if parts == [] then ""
    else if |parts| == 1 then parts[0]
    else parts[0] + sep + Join(parts[1..], sep)
  }

  /** `s.repeat(n)` for a one-character string `s`. */
  function Repeat(c: char, n: nat): (r: string)
    ensures |r| == n && forall i | 0 <= i < n :: r[i] == c
  {
    if n == 0 then [] else [c] + Repeat(c, n - 1)
  }

  /** `hay.startsWith(needle)`. */
  predicate StartsWith(hay: string, needle: string) {
    |needle| <= |hay| && hay[..|needle|] == needle
  }

  /** `hay.includes(needle)`: `needle` occurs at some position of `hay`. */
  predicate Includes(hay: string, needle: string)
    decreases |hay|
  {
    StartsWith(hay, needle) || (hay != [] && Includes(hay[1..], needle))
  }

  /** `needle` occurs in `hay` starting at offset `i`. */
  predicate OccursAt(hay: string, needle: string, i: int) {
    0 <= i <= |hay| - |needle| && hay[i..i + |needle|] == needle
  }

  /** `Includes` holds exactly when `needle` occurs at some offset. */
  lemma {:induction false} IncludesAt(hay: string, needle: string)
    ensures Includes(hay, needle) <==> exists i :: OccursAt(hay, needle, i)
    decreases |hay|
  {
    if StartsWith(hay, needle) {
      assert OccursAt(hay, needle, 0);
    }
    if hay != [] {
      IncludesAt(hay[1..], needle);
      if Includes(hay[1..], needle) {
        var i :| OccursAt(hay[1..], needle, i);
        assert hay[i + 1..i + 1 + |needle|] == hay[1..][i..i + |needle|];
        assert OccursAt(hay, needle, i + 1);
      }
    }
    if exists i :: OccursAt(hay, needle, i) {
      var i :| OccursAt(hay, needle, i);
      if i > 0 {
        assert hay[1..][i - 1..i - 1 + |needle|] == hay[i..i + |needle|];
        assert OccursAt(hay[1..], needle, i - 1);
      }
    }
  }

  function LowerChar(c: char): char {
    if 'A' <= c <= 'Z' then (c as int + 32) as char else c
  }

  function UpperChar(c: char): char {
    if 'a' <= c <= 'z' then (c as int - 32) as char else c
  }

  /** `s.toLowerCase()` restricted to ASCII letters. */
  function Lower(s: string): (r: string)
    ensures |r| == |s| && forall i | 0 <= i < |s| :: r[i] == LowerChar(s[i])
  {
    if s == [] then [] else [LowerChar(s[0])] + Lower(s[1..])
  }

  /** `s.toUpperCase()` restricted to ASCII letters. */
  function Upper(s: string): (r: string)
    ensures |r| == |s| && forall i | 0 <= i < |s| :: r[i] == UpperChar(s[i])
  {
    if s == [] then [] else [UpperChar(s[0])] + Upper(s[1..])
  }
}
