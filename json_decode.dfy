/** The decisions `ay::JSON_SAX_parser` takes on single bytes and on a
    finished token: the hex-digit test, the `\uXXXX` payload, the escape
    table and the classification of a token done by `setValue`.

    Where the source does not mean what it says, both readings are here: a
    member with `AsWritten` in its name models the code as it stands, and
    the member without that suffix is the evidently intended one, which the
    parser uses. */
module JsonDecode {
  import opened Bytes
  import opened JsonValue

  datatype Option<T> = None | Some(value: T)

  // ---------------------------------------------------------------------
  // Hex digits (ay_json.h:88)
  // ---------------------------------------------------------------------

  /** `is_hex_digit`: `0-9`, `A-F` or `a-f`. */
  predicate IsHexDigit(c: byte) {
    (ZERO <= c <= NINE) || ('A' as byte <= c <= 'F' as byte) || ('a' as byte <= c <= 'f' as byte)
  }

  predicate AllHex(h: seq<byte>) {
    forall k :: 0 <= k < |h| ==> IsHexDigit(h[k])
  }

  /** The nibble a hex digit stands for. */
  function HexValue(c: byte): (v: nat)
    requires IsHexDigit(c)
    ensures v < 16
  {
    if c <= NINE then (c - ZERO) as nat
    else if c <= 'F' as byte then (c - 'A' as byte) as nat + 10
    else (c - 'a' as byte) as nat + 10
  }

  /** Upper-case digit of a nibble, as a JSON writer emits it. */
  function HexDigit(v: nat): byte
    requires v < 16
  {
    if v < 10 then ZERO + v as byte else 'A' as byte + (v - 10) as byte
  }

  /** Lower-case digit of a nibble. */
  function LowerHexDigit(v: nat): byte
    requires v < 16
  {
    if v < 10 then ZERO + v as byte else 'a' as byte + (v - 10) as byte
  }

  /** `is_hex_digit` accepts exactly the upper- and lower-case digits of the
      sixteen nibbles, and `HexValue` names the nibble. */
  lemma HexDigitsAreNibbles(c: byte)
    ensures IsHexDigit(c) <==> exists v :: 0 <= v < 16 && (c == HexDigit(v) || c == LowerHexDigit(v))
    ensures IsHexDigit(c) ==> c == HexDigit(HexValue(c)) || c == LowerHexDigit(HexValue(c))
  {
    if IsHexDigit(c) {
      var v := HexValue(c);
      assert c == HexDigit(v) || c == LowerHexDigit(v);
    }
  }

  /** Decoding a digit written for a nibble gives the nibble back. */
  lemma HexDigitRoundTrip(v: nat)
    requires v < 16
    ensures IsHexDigit(HexDigit(v)) && HexValue(HexDigit(v)) == v
    ensures IsHexDigit(LowerHexDigit(v)) && HexValue(LowerHexDigit(v)) == v
  {
  }

  // ---------------------------------------------------------------------
  // The \uXXXX payload (ay_json.h:89-97)
  // ---------------------------------------------------------------------

  /** The two bytes `push_unicode` is meant to append for four hex digits:
      the code unit big-endian, each byte packed from a high and a low
      nibble. */
  function UnicodeBytes(h: seq<byte>): (r: seq<byte>)
    requires |h| == 4 && AllHex(h)
    ensures |r| == 2
  {
    [(HexValue(h[0]) * 16 + HexValue(h[1])) as byte, (HexValue(h[2]) * 16 + HexValue(h[3])) as byte]
  }

  /** The two upper-case hex digits a writer emits for one byte. */
  function HexByte(b: byte): (r: seq<byte>)
    ensures |r| == 2 && AllHex(r)
  {
    HexDigitRoundTrip(b as nat / 16);
    HexDigitRoundTrip(b as nat % 16);
    [HexDigit(b as nat / 16), HexDigit(b as nat % 16)]
  }

  /** Decoding the hex text of two bytes gives those two bytes back. */
  lemma UnicodeBytesRoundTrip(hi: byte, lo: byte)
    ensures |HexByte(hi) + HexByte(lo)| == 4 && AllHex(HexByte(hi) + HexByte(lo))
    ensures UnicodeBytes(HexByte(hi) + HexByte(lo)) == [hi, lo]
  {
    var h := HexByte(hi) + HexByte(lo);
    HexDigitRoundTrip(hi as nat / 16);
    HexDigitRoundTrip(hi as nat % 16);
    HexDigitRoundTrip(lo as nat / 16);
    HexDigitRoundTrip(lo as nat % 16);
    assert HexValue(h[0]) * 16 + HexValue(h[1]) == hi as nat;
    assert HexValue(h[2]) * 16 + HexValue(h[3]) == lo as nat;
  }

  /** A C++ `int` stored into a `char`: the low eight bits. */
  function ToChar(x: int): byte {
    (x % 256) as byte
  }

  /** What lines 92-93 append as written: `(s[1] + s[0]) << 4`, because `+`
      binds tighter than `<<`, on the raw character codes, never on the
      nibbles they stand for. */
  function UnicodeBytesAsWritten(h: seq<byte>): (r: seq<byte>)
    requires |h| == 4
    ensures |r| == 2
  {
    [ToChar((h[1] as int + h[0] as int) * 16), ToChar((h[3] as int + h[2] as int) * 16)]
  }

  /** As written, every appended byte has a zero low nibble, so `\u0041`
      yields 00 50 where 00 41 is meant. */
  lemma UnicodeBytesAsWrittenMisdecodes(h: seq<byte>)
    requires |h| == 4
    ensures UnicodeBytesAsWritten(h)[0] % 16 == 0 && UnicodeBytesAsWritten(h)[1] % 16 == 0
    ensures UnicodeBytesAsWritten(FromString("0041")) == [0x00, 0x50]
    ensures AllHex(FromString("0041")) && UnicodeBytes(FromString("0041")) == [0x00, 0x41]
  {
    var x := (h[1] as int + h[0] as int) * 16;
    var y := (h[3] as int + h[2] as int) * 16;
    assert (x % 256) % 16 == 0;
    assert (y % 256) % 16 == 0;
  }

  // ---------------------------------------------------------------------
  // Escape sequences (ay_json.h:155-175)
  // ---------------------------------------------------------------------

  /** The short escapes of the switch at lines 157-166: the byte after the
      backslash, and the byte it stands for. `u` is handled by `Unescape`. */
  function EscapeTable(c: byte): (r: Option<byte>)
  {
    if c == QUOTE then Some(QUOTE)
    else if c == BACKSLASH then Some(BACKSLASH)
    else if c == '/' as byte then Some('/' as byte)
    else if c == 'b' as byte then Some(8)
    else if c == 'f' as byte then Some(12)
    else if c == 'n' as byte then Some(10)
    else if c == 'r' as byte then Some(13)
    else if c == 't' as byte then Some(TAB)
    else None
  }

  /** The writer's side: the letter a JSON writer puts after a backslash for
      the eight bytes that have a short escape. */
  function ShortEscape(b: byte): Option<byte>
  {
    if b == QUOTE then Some(QUOTE)
    else if b == BACKSLASH then Some(BACKSLASH)
    else if b == '/' as byte then Some('/' as byte)
    else if b == 8 then Some('b' as byte)
    else if b == 12 then Some('f' as byte)
    else if b == 10 then Some('n' as byte)
    else if b == 13 then Some('r' as byte)
    else if b == TAB then Some('t' as byte)
    else None
  }

  /** The escape table and the writer's short escapes are inverse to each
      other, in both directions. */
  lemma EscapeTableInvertsShortEscape(c: byte, b: byte)
    ensures EscapeTable(c) == Some(b) <==> ShortEscape(b) == Some(c)
  {
  }

  /** What one escape contributes: the bytes appended to the token and how
      many input bytes after the escape letter it consumed. */
  datatype Unescaped = Unescaped(bytes: seq<byte>, skip: nat)

  /** The escaped branch at the escape letter `s[i]`. A short escape appends
      its byte; `u` needs four more bytes, all hex digits, appends their two
      bytes and skips them, and otherwise fails (None stands for
      `ERR_UNICODE`); any other letter appends nothing and does not fail. */
  function Unescape(s: seq<byte>, i: nat): (r: Option<Unescaped>)
    requires i < |s|
    ensures r.Some? ==> i + r.value.skip < |s|
  {
    if s[i] == 'u' as byte then
      if i + 4 < |s| && AllHex(s[i + 1..i + 5]) then Some(Unescaped(UnicodeBytes(s[i + 1..i + 5]), 4))
      else None
    else
      match EscapeTable(s[i])
      case Some(b) => Some(Unescaped([b], 0))
      case None => Some(Unescaped([], 0))
  }

  /** The escaped branch as written: the four-byte window handed to
      `push_unicode` starts at the `u` itself (line 168), and a successful
      decode would also append the TAB left in `c` by line 167. */
  function UnescapeAsWritten(s: seq<byte>, i: nat): (r: Option<Unescaped>)
    requires i < |s|
  {
    if s[i] == 'u' as byte then
      if i + 3 < |s| && AllHex(s[i..i + 4]) then Some(Unescaped(UnicodeBytesAsWritten(s[i..i + 4]) + [TAB], 3))
      else None
    else
      match EscapeTable(s[i])
      case Some(b) => Some(Unescaped([b], 0))
      case None => Some(Unescaped([], 0))
  }

  /** As written, every `\u` escape fails, `\u0041` included, since `u` is not
      a hex digit; the intended reading decodes it. */
  lemma UnescapeAsWrittenRejectsUnicode(s: seq<byte>, i: nat)
    requires i < |s| && s[i] == 'u' as byte
    ensures UnescapeAsWritten(s, i) == None
    ensures UnescapeAsWritten(FromString("u0041"), 0) == None
    ensures Unescape(FromString("u0041"), 0) == Some(Unescaped([0x00, 0x41], 4))
  {
    var t := FromString("u0041");
    assert t[1..5] == FromString("0041");
    UnicodeBytesAsWrittenMisdecodes(t[1..5]);
  }

  /** Decoding what a writer produced: a short escape gives its byte back,
      and `u` followed by the hex text of two bytes gives those two bytes
      and skips the four digits. */
  lemma UnescapeRoundTrip(b: byte, hi: byte, lo: byte, s: seq<byte>, i: nat)
    requires i < |s|
    ensures ShortEscape(b) == Some(s[i]) ==> Unescape(s, i) == Some(Unescaped([b], 0))
    ensures i + 5 <= |s| && s[i..i + 5] == ['u' as byte] + HexByte(hi) + HexByte(lo) ==>
              Unescape(s, i) == Some(Unescaped([hi, lo], 4))
  {
    if i + 5 <= |s| && s[i..i + 5] == ['u' as byte] + HexByte(hi) + HexByte(lo) {
      assert s[i + 1..i + 5] == HexByte(hi) + HexByte(lo);
      UnicodeBytesRoundTrip(hi, lo);
    }
  }

  /** The only failure is a `u` escape without four hex digits after it; any
      other letter appends at most one byte. */
  lemma UnescapeFailsOnlyOnUnicode(s: seq<byte>, i: nat)
    requires i < |s|
    ensures Unescape(s, i) == None <==>
              s[i] == 'u' as byte && (i + 4 >= |s| || exists k :: i < k <= i + 4 && !IsHexDigit(s[k]))
    ensures s[i] != 'u' as byte ==> Unescape(s, i).Some? && Unescape(s, i).value.skip == 0 &&
                                    |Unescape(s, i).value.bytes| == (if EscapeTable(s[i]).Some? then 1 else 0)
  {
    if s[i] == 'u' as byte && i + 4 < |s| && !AllHex(s[i + 1..i + 5]) {
      var j :| 0 <= j < 4 && !IsHexDigit(s[i + 1..i + 5][j]);
      assert !IsHexDigit(s[i + 1 + j]);
    }
  }

  // ---------------------------------------------------------------------
  // atoi (ay_json.h:108)
  // ---------------------------------------------------------------------

  /** `s` without its leading white space. */
  function SkipSpace(s: seq<byte>): (r: seq<byte>)
    ensures |r| <= |s| && r == s[|s| - |r|..]
    ensures r == [] || !IsSpace(r[0])
  {
    if s != [] && IsSpace(s[0]) then SkipSpace(s[1..]) else s
  }

  /** The longest run of decimal digits at the front of `s`. */
  function DigitPrefix(s: seq<byte>): (r: seq<byte>)
    ensures r <= s && AllDigits(r)
    ensures |r| == |s| || !IsDigit(s[|r|])
  {
    if s != [] && IsDigit(s[0]) then [s[0]] + DigitPrefix(s[1..]) else []
  }

  /** C `atoi` on a NUL-terminated numeral: white space, an optional sign,
      then as many digits as follow (a NUL is not a digit, so the scan
      stops at the terminator). */
  function AtoI(s: seq<byte>): int
  {
    var t := SkipSpace(s);
    if t != [] && t[0] == MINUS then 0 - DigitsValue(DigitPrefix(t[1..]))
    else if t != [] && t[0] == PLUS then DigitsValue(DigitPrefix(t[1..]))
    else DigitsValue(DigitPrefix(t))
  }

  /** The decimal text of an integer, as `printf("%d")` writes it. */
  function IntText(n: int): (r: seq<byte>)
    ensures |r| >= 1
  {
    if n < 0 then [MINUS] + DecimalText(-n) else DecimalText(n)
  }

  lemma {:induction false} DigitPrefixOfDigits(d: seq<byte>, rest: seq<byte>)
    requires AllDigits(d)
    requires rest == [] || !IsDigit(rest[0])
    ensures DigitPrefix(d + rest) == d
  {
    if d != [] {
      assert (d + rest)[1..] == d[1..] + rest;
      DigitPrefixOfDigits(d[1..], rest);
    }
  }

  /** Nothing is skipped before a byte that is not white space. */
  lemma SkipNoSpace(s: seq<byte>)
    requires s != [] && !IsSpace(s[0])
    ensures SkipSpace(s) == s
  {
  }

  lemma AtoIOfDigits(d: seq<byte>, rest: seq<byte>)
    requires |d| >= 1 && AllDigits(d)
    requires rest == [] || !IsDigit(rest[0])
    ensures AtoI(d + rest) == DigitsValue(d)
  {
    var s := d + rest;
    assert s[0] == d[0];
    SkipNoSpace(s);
    DigitPrefixOfDigits(d, rest);
  }

  lemma AtoIOfNegative(d: seq<byte>, rest: seq<byte>)
    requires |d| >= 1 && AllDigits(d)
    requires rest == [] || !IsDigit(rest[0])
    ensures AtoI([MINUS] + d + rest) == 0 - DigitsValue(d)
  {
    var s := [MINUS] + d + rest;
    var u := d + rest;
    assert s == [MINUS] + u;
    AtoINegative(u);
    DigitPrefixOfDigits(d, rest);
  }

  /** A leading minus negates what the digits after it are worth. */
  lemma AtoINegative(u: seq<byte>)
    ensures AtoI([MINUS] + u) == 0 - DigitsValue(DigitPrefix(u))
  {
    var s := [MINUS] + u;
    assert s[0] == MINUS && s[1..] == u;
    SkipNoSpace(s);
  }

  /** `atoi` reads back the decimal text of any integer, whatever non-digit
      (the NUL terminator, say) follows it. */
  lemma AtoIRoundTrip(n: int, rest: seq<byte>)
    requires rest == [] || !IsDigit(rest[0])
    ensures AtoI(IntText(n) + rest) == n
  {
    var m := if n < 0 then -n else n;
    DecimalTextValue(m);
    if n < 0 {
      AtoIOfNegative(DecimalText(m), rest);
    } else {
      AtoIOfDigits(DecimalText(m), rest);
    }
  }

  // ---------------------------------------------------------------------
  // setValue (ay_json.h:98-146)
  // ---------------------------------------------------------------------

  /** What lines 101-104 leave in `numbuf[32]`: `strncpy` of at most 31
      bytes of the token, read as a C string. */
  function NumText(t: seq<byte>): (r: seq<byte>)
    ensures |r| <= 31 && NUL !in r && r <= t
  {
    UpToNul(t[..if |t| < 32 then |t| else 31])
  }

  const TRUE: seq<byte> := FromString("true")
  const FALSE: seq<byte> := FromString("false")
  const NULL: seq<byte> := FromString("null")
  const UNDEFINED: seq<byte> := FromString("undefined")

  /** The classification of `setValue`, with the fifth byte that the `f`
      branch compares against as a parameter: `t[k]` past the end of the
      token reads as NUL, so `!t[4]` means "the token ends here". */
  function Classify(v: Value, t: seq<byte>, quoteInFront: bool, isNumber: bool, falseEnd: byte): (r: Value)
  {
    if isNumber then
      var num := NumText(t);
      if DOT in num then Real(num) else Int(AtoI(num))
    else if !quoteInFront then
      var c := At(t, 0);
      if c == 't' as byte then
        if At(t, 1) == 'r' as byte && At(t, 2) == 'u' as byte && At(t, 3) == 'e' as byte && At(t, 4) == NUL
        then Bool(true) else v
      else if c == 'f' as byte then
        if At(t, 1) == 'a' as byte && At(t, 2) == 'l' as byte && At(t, 3) == 's' as byte && At(t, 4) == falseEnd
           && At(t, 5) == NUL
        then Bool(false) else v
      else if c == 'n' as byte then
        if At(t, 1) == 'u' as byte && At(t, 2) == 'l' as byte && At(t, 3) == 'l' as byte && At(t, 4) == NUL
        then Null else v
      else if c == 'u' as byte then
        if At(t, 1) == 'n' as byte && At(t, 2) == 'd' as byte && At(t, 3) == 'e' as byte && At(t, 4) == 'f' as byte
           && At(t, 5) == 'i' as byte && At(t, 6) == 'n' as byte && At(t, 7) == 'e' as byte
           && At(t, 8) == 'd' as byte && At(t, 9) == NUL
        then Undefined else v
      else String(t)
    else String(t)
  }

  /** `setValue` as written: the `f` branch spells `falss` (line 120). */
  function SetValueAsWritten(v: Value, t: seq<byte>, quoteInFront: bool, isNumber: bool): Value
  {
    Classify(v, t, quoteInFront, isNumber, 's' as byte)
  }

  /** `setValue` as meant: the `f` branch spells `false`. `v` is the value
      before the call, which a failed keyword test leaves in place. */
  function SetValue(v: Value, t: seq<byte>, quoteInFront: bool, isNumber: bool): Value
  {
    Classify(v, t, quoteInFront, isNumber, 'e' as byte)
  }

  /** As written, `false` leaves the value unchanged and `falss` is read as
      Bool(false); as meant, `false` is Bool(false). */
  lemma SetValueAsWrittenMissesFalse(v: Value)
    ensures SetValueAsWritten(v, FALSE, false, false) == v
    ensures SetValueAsWritten(v, FromString("falss"), false, false) == Bool(false)
    ensures SetValue(v, FALSE, false, false) == Bool(false)
  {
  }

  /** An unquoted, non-numeric token is a keyword exactly when its C string
      equals it (a prefix such as `truex` does not match); a token that
      starts like a keyword but is none keeps the old value; any other
      token is a String of its bytes. */
  lemma SetValueKeywords(v: Value, t: seq<byte>)
    ensures SetValue(v, t, false, false) ==
              if UpToNul(t) == TRUE then Bool(true)
              else if UpToNul(t) == FALSE then Bool(false)
              else if UpToNul(t) == NULL then Null
              else if UpToNul(t) == UNDEFINED then Undefined
              else if At(t, 0) in {'t' as byte, 'f' as byte, 'n' as byte, 'u' as byte} then v
              else String(t)
  {
    AtMatchesUpToNul(t, TRUE);
    AtMatchesUpToNul(t, FALSE);
    AtMatchesUpToNul(t, NULL);
    AtMatchesUpToNul(t, UNDEFINED);
  }

  /** A quoted token that was not taken for a number is always a String of
      its bytes, even when it reads like a keyword. */
  lemma SetValueQuotedIsString(v: Value, t: seq<byte>)
    ensures SetValue(v, t, true, false) == String(t)
    ensures SetValue(v, TRUE, true, false) != Bool(true)
  {
  }

  /** A numeric token is Real exactly when a `.` occurs among its first
      min(len, 31) bytes before any NUL; otherwise Int. */
  lemma SetValueNumberKind(v: Value, t: seq<byte>, quoteInFront: bool)
    ensures SetValue(v, t, quoteInFront, true).Real? || SetValue(v, t, quoteInFront, true).Int?
    ensures SetValue(v, t, quoteInFront, true).Real? <==>
              exists k :: 0 <= k < |t| && k < 31 && t[k] == DOT && NUL !in t[..k]
  {
    var num := NumText(t);
    var l := if |t| < 32 then |t| else 31;
    if DOT in num {
      var k :| 0 <= k < |num| && num[k] == DOT;
      assert t[k] == DOT && t[..k] == num[..k];
    }
    if exists k :: 0 <= k < |t| && k < 31 && t[k] == DOT && NUL !in t[..k] {
      var k :| 0 <= k < |t| && k < 31 && t[k] == DOT && NUL !in t[..k];
      assert num[k] == DOT;
    }
  }

  /** At most 31 bytes of a numeric token are examined. */
  lemma SetValueNumberReads31(v: Value, t: seq<byte>, quoteInFront: bool)
    requires |t| > 31
    ensures SetValue(v, t, quoteInFront, true) == SetValue(v, t[..31], quoteInFront, true)
  {
    assert t[..31][..31] == t[..31];
  }

  /** A numeric token holding the decimal text of an integer (up to 31
      bytes) decodes to that integer. */
  lemma SetValueIntRoundTrip(v: Value, n: int, quoteInFront: bool)
    requires |IntText(n)| <= 31
    ensures SetValue(v, IntText(n), quoteInFront, true) == Int(n)
  {
    var t := IntText(n);
    assert t[..|t|] == t;
    var m := if n < 0 then -n else n;
    assert AllDigits(DecimalText(m));
    assert NUL !in t;
    assert UpToNul(t) == t;
    assert DOT !in t;
    AtoIRoundTrip(n, []);
    assert t + [] == t;
  }
}
