/** Bytes as the C++ sources see them: `char` values in a buffer, read as
    NUL-terminated strings, and decimal numerals made of ASCII digits. */
module Bytes {

  /** One `char` of a buffer, taken as an unsigned byte. */
  newtype byte = x: int | 0 <= x < 256

  const NUL: byte := 0
  const TAB: byte := 9
  const SPACE: byte := ' ' as byte
  const QUOTE: byte := '"' as byte
  const BACKSLASH: byte := '\\' as byte
  const ZERO: byte := '0' as byte
  const ONE: byte := '1' as byte
  const NINE: byte := '9' as byte
  const DOT: byte := '.' as byte
  const PLUS: byte := '+' as byte
  const MINUS: byte := '-' as byte

  /** The bytes of an ASCII (Latin-1) string literal. */
  function FromString(s: string): (r: seq<byte>)
    requires forall k :: 0 <= k < |s| ==> s[k] as int < 256
    ensures |r| == |s|
    ensures forall k :: 0 <= k < |s| ==> r[k] as int == s[k] as int
  {
    seq(|s|, k requires 0 <= k < |s| => s[k] as int as byte)
  }

  /** `isdigit` in the C locale. */
  predicate IsDigit(c: byte) {
    ZERO <= c <= NINE
  }

  predicate AllDigits(d: seq<byte>) {
    forall k :: 0 <= k < |d| ==> IsDigit(d[k])
  }

  /** `isspace` in the C locale: space, and TAB through CR. */
  predicate IsSpace(c: byte) {
    c == SPACE || 9 <= c <= 13
  }

  /** Index of the first NUL of `s`, or `|s|` when there is none: the length
      of the C string that starts at `s[0]`. */
  function NulIndex(s: seq<byte>): (n: nat)
    ensures n <= |s|
    ensures forall k :: 0 <= k < n ==> s[k] != NUL
    ensures n < |s| ==> s[n] == NUL
  {
    if s == [] || s[0] == NUL then 0 else 1 + NulIndex(s[1..])
  }

  /** The C string that starts at `s[0]`. */
  function UpToNul(s: seq<byte>): (r: seq<byte>)
    ensures NUL !in r
    ensures r <= s
    ensures |r| == |s| || s[|r|] == NUL
  {
    s[..NulIndex(s)]
  }

  /** `s[k]` of a buffer whose bytes past the end read as NUL. */
  function At(s: seq<byte>, k: nat): byte {
    if k < |s| then s[k] else NUL
  }

  /** Reading `At` byte by byte up to the first NUL gives the C string. */
  lemma {:induction false} AtMatchesUpToNul(s: seq<byte>, w: seq<byte>)
    requires NUL !in w
    ensures UpToNul(s) == w <==>
              (forall k :: 0 <= k < |w| ==> At(s, k) == w[k]) && At(s, |w|) == NUL
  {
    var n := NulIndex(s);
    if (forall k :: 0 <= k < |w| ==> At(s, k) == w[k]) && At(s, |w|) == NUL {
      forall k | 0 <= k < |w| ensures k < |s| && s[k] == w[k] {
        assert w[k] in w && At(s, k) == w[k];
      }
      assert |w| <= |s| by {
        if |w| > 0 { assert At(s, |w| - 1) == w[|w| - 1]; }
      }
      assert n == |w|;
      assert s[..n] == w;
    }
  }

  function Pow10(n: nat): (r: nat)
    ensures r >= 1
  {
    if n == 0 then 1 else 10 * Pow10(n - 1)
  }

  /** The value of a decimal numeral, most significant digit first. */
  function DigitsValue(d: seq<byte>): (v: nat)
    requires AllDigits(d)
  {
    if d == [] then 0 else DigitsValue(d[..|d| - 1]) * 10 + (d[|d| - 1] - ZERO) as nat
  }

  /** Leading digit: its weight is `10^(number of digits after it)`. */
  lemma {:induction false} DigitsValueCons(c: byte, d: seq<byte>)
    requires IsDigit(c) && AllDigits(d)
    ensures AllDigits([c] + d)
    ensures DigitsValue([c] + d) == (c - ZERO) as nat * Pow10(|d|) + DigitsValue(d)
  {
    var e := [c] + d;
    if d == [] {
      assert e[..0] == [];
    } else {
      var init := d[..|d| - 1];
      assert e[..|e| - 1] == [c] + init;
      DigitsValueCons(c, init);
      assert Pow10(|d|) == 10 * Pow10(|init|);
      assert DigitsValue(d) == DigitsValue(init) * 10 + (d[|d| - 1] - ZERO) as nat;
      ShiftDigit((c - ZERO) as nat, Pow10(|init|), DigitsValue(init), (d[|d| - 1] - ZERO) as nat);
    }
  }

  /** Appending a digit to a numeral that is `w * q + v` shifts both parts
      one place. */
  lemma ShiftDigit(w: nat, q: nat, v: nat, last: nat)
    ensures (w * q + v) * 10 + last == w * (10 * q) + (v * 10 + last)
  {
  }

  /** `n` copies of the byte `c`. */
  function Repeat(c: byte, n: nat): (r: seq<byte>)
    ensures |r| == n
    ensures forall k :: 0 <= k < n ==> r[k] == c
  {
    seq(n, _ => c)
  }

  /** A numeral made only of zeros is worth 0. */
  lemma {:induction false} ZerosValue(n: nat)
    ensures AllDigits(Repeat(ZERO, n))
    ensures DigitsValue(Repeat(ZERO, n)) == 0
  {
    if n > 0 {
      assert Repeat(ZERO, n)[..n - 1] == Repeat(ZERO, n - 1);
      ZerosValue(n - 1);
    }
  }

  /** The decimal rendering of a natural number: no leading zero, "0" for 0. */
  function DecimalText(n: nat): (r: seq<byte>)
    ensures |r| >= 1 && AllDigits(r)
    ensures |r| > 1 ==> r[0] != ZERO
  {
    if n < 10 then [ZERO + n as byte] else DecimalText(n / 10) + [ZERO + (n % 10) as byte]
  }

  /** Reading back a rendered number gives the number. */
  lemma {:induction false} DecimalTextValue(n: nat)
    ensures DigitsValue(DecimalText(n)) == n
  {
    var r := DecimalText(n);
    if n < 10 {
      assert r[..0] == [];
    } else {
      assert r[..|r| - 1] == DecimalText(n / 10);
      DecimalTextValue(n / 10);
    }
  }
}
