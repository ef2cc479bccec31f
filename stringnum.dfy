/** `ebson11::StrRepDecimal` (bson/stringnum.h): a decimal counter kept as
    text. A 21-byte buffer holds the numeral right-aligned, ending at byte 19,
    with a NUL at byte 20; `d_first` (here the index `first`) is where the
    numeral starts, so `c_str()` is the C string from there. `increment`
    adds one in place by a ripple carry from byte 19 leftwards. */
module StringNum {
  import opened Bytes

  /** Every byte would be reset by the carry loop: `*p >= '9'` (line 47). */
  predicate AllNines(d: seq<byte>) {
    forall k :: 0 <= k < |d| ==> d[k] >= NINE
  }

  /** The digits after adding one without growing the numeral, and whether
      a carry came out of its leading digit. */
  datatype Carried = Carried(digits: seq<byte>, carry: bool)

  /** The ripple carry of lines 45-54 over the digits `d`, rightmost first:
      a byte at or above `'9'` becomes `'0'` and the carry moves left; the
      first byte below `'9'` goes up by one and the carry stops. */
  function AddOne(d: seq<byte>): (r: Carried)
    ensures |r.digits| == |d|
  {
    if d == [] then Carried([], true)
    else if d[|d| - 1] >= NINE then
      var r := AddOne(d[..|d| - 1]);
      Carried(r.digits + [ZERO], r.carry)
    else Carried(d[..|d| - 1] + [d[|d| - 1] + 1], false)
  }

  /** The numeral after `increment`: the carried digits, with a new leading
      `'1'` when the carry came out and there is `room` before `d_first`
      (lines 56-57). */
  function Incremented(d: seq<byte>, room: bool): seq<byte> {
    var r := AddOne(d);
    if r.carry && room then [ONE] + r.digits else r.digits
  }

  /** Adding one: the new digits, plus `10^n` when the carry came out, are
      worth one more than the old digits. */
  lemma {:induction false} AddOneValue(d: seq<byte>)
    requires AllDigits(d)
    ensures AllDigits(AddOne(d).digits)
    ensures DigitsValue(AddOne(d).digits) + (if AddOne(d).carry then Pow10(|d|) else 0) == DigitsValue(d) + 1
  {
    if d != [] {
      var init, last := d[..|d| - 1], d[|d| - 1];
      var r := AddOne(d);
      assert r.digits[..|d| - 1] == AddOne(init).digits || last < NINE;
      if last >= NINE {
        AddOneValue(init);
        assert r.digits[..|r.digits| - 1] == AddOne(init).digits;
      } else {
        assert r.digits[..|r.digits| - 1] == init;
      }
    }
  }

  /** A carry comes out exactly when every digit was a nine. */
  lemma {:induction false} AddOneCarry(d: seq<byte>)
    ensures AddOne(d).carry <==> AllNines(d)
  {
    if d != [] {
      var init := d[..|d| - 1];
      AddOneCarry(init);
      if AllNines(d) {
        assert AllNines(init) by {
          forall k | 0 <= k < |init| ensures init[k] >= NINE { assert init[k] == d[k]; }
        }
      } else if d[|d| - 1] >= NINE {
        var k :| 0 <= k < |d| && d[k] < NINE;
        assert init[k] == d[k];
      }
    }
  }

  /** Carrying through a run of nines turns them into zeros and passes the
      carry on to the digits before them. */
  lemma {:induction false} AddOneNines(a: seq<byte>, b: seq<byte>)
    requires AllNines(b)
    ensures AddOne(a + b) == Carried(AddOne(a).digits + Repeat(ZERO, |b|), AddOne(a).carry)
  {
    if b == [] {
      assert a + b == a;
      assert AddOne(a).digits + Repeat(ZERO, 0) == AddOne(a).digits;
    } else {
      var b' := b[..|b| - 1];
      assert (a + b)[..|a + b| - 1] == a + b';
      assert (a + b)[|a + b| - 1] == b[|b| - 1];
      AddOneNines(a, b');
      assert Repeat(ZERO, |b'|) + [ZERO] == Repeat(ZERO, |b|);
    }
  }

  /** The shape of `increment`'s result: the trailing nines (`b`) become
      zeros and the digit before them (`c`) goes up by one, and what lies
      to its left (`a`) is untouched, with no carry. */
  lemma BumpDigit(a: seq<byte>, c: byte, b: seq<byte>)
    requires c < NINE && AllNines(b)
    ensures AddOne(a + [c] + b) == Carried(a + [c + 1] + Repeat(ZERO, |b|), false)
  {
    var ac := a + [c];
    assert ac[..|ac| - 1] == a && ac[|ac| - 1] == c;
    assert AddOne(ac) == Carried(a + [c + 1], false);
    AddOneNines(ac, b);
  }

  /** All nines: every digit becomes a zero and a carry comes out. */
  lemma NinesToZeros(b: seq<byte>)
    requires AllNines(b)
    ensures AddOne(b) == Carried(Repeat(ZERO, |b|), true)
  {
    AddOneNines([], b);
    assert [] + b == b;
  }

  /** What `increment` does to a numeral of `n` digits. Unless it is all
      nines, it keeps its length and goes up by one. All nines with room
      before it become `'1'` followed by `n` zeros, one digit longer; all
      nines without room wrap to `n` zeros. */
  lemma IncrementedValue(d: seq<byte>, room: bool)
    requires AllDigits(d)
    ensures AllDigits(Incremented(d, room))
    ensures !AllNines(d) ==> |Incremented(d, room)| == |d| && DigitsValue(Incremented(d, room)) == DigitsValue(d) + 1
    ensures AllNines(d) && room ==> Incremented(d, room) == [ONE] + Repeat(ZERO, |d|) &&
                                    DigitsValue(Incremented(d, room)) == DigitsValue(d) + 1
    ensures AllNines(d) && !room ==> Incremented(d, room) == Repeat(ZERO, |d|) &&
                                     DigitsValue(Incremented(d, room)) == 0
  {
    AddOneValue(d);
    AddOneCarry(d);
    if AllNines(d) {
      NinesToZeros(d);
      ZerosValue(|d|);
      DigitsValueCons(ONE, Repeat(ZERO, |d|));
    }
  }

  /** A decimal numeral of at most `k` digits is all a number below `10^k`
      needs. */
  lemma {:induction false} DecimalTextLength(n: nat, k: nat)
    requires 1 <= k && n < Pow10(k)
    ensures |DecimalText(n)| <= k
  {
    if n >= 10 {
      assert k >= 2;
      assert n / 10 < Pow10(k - 1);
      DecimalTextLength(n / 10, k - 1);
    }
  }

  /** A last digit below nine is bumped and the rest is untouched. */
  lemma IncrementLastDigit(h: seq<byte>, c: byte, room: bool)
    requires c < NINE
    ensures Incremented(h + [c], room) == h + [c + 1]
  {
    assert (h + [c])[..|h + [c]| - 1] == h;
  }

  /** A last nine becomes a zero and the carry goes on into the rest. */
  lemma IncrementLastNine(h: seq<byte>, room: bool)
    ensures Incremented(h + [NINE], room) == Incremented(h, room) + [ZERO]
  {
    assert (h + [NINE])[..|h + [NINE]| - 1] == h;
    var r := AddOne(h);
    if r.carry && room {
      assert Incremented(h + [NINE], room) == ([ONE] + r.digits) + [ZERO];
    }
  }

  /** Incrementing the decimal rendering of `n`, with room to grow, gives
      the decimal rendering of `n + 1`. */
  lemma {:induction false} IncrementDecimal(n: nat)
    ensures Incremented(DecimalText(n), true) == DecimalText(n + 1)
  {
    if n < 10 {
      IncrementOneDigit(n);
    } else {
      var m, k := n / 10, n % 10;
      DecimalTextSnoc(n);
      if k == 9 {
        IncrementDecimal(m);
        IncrementLastNine(DecimalText(m), true);
        assert (n + 1) / 10 == m + 1 && (n + 1) % 10 == 0;
        DecimalTextSnoc(n + 1);
      } else {
        IncrementLastDigit(DecimalText(m), ZERO + k as byte, true);
        assert (n + 1) / 10 == m && (n + 1) % 10 == k + 1;
        DecimalTextSnoc(n + 1);
      }
    }
  }

  /** The last digit of a rendering of two or more digits. */
  lemma DecimalTextSnoc(n: nat)
    requires n >= 10
    ensures DecimalText(n) == DecimalText(n / 10) + [ZERO + (n % 10) as byte]
  {
  }

  lemma IncrementOneDigit(n: nat)
    requires n < 10
    ensures Incremented(DecimalText(n), true) == DecimalText(n + 1)
  {
    if n == 9 {
      assert DecimalText(n) == [] + [NINE];
      IncrementLastNine([], true);
      assert DecimalText(10) == DecimalText(1) + [ZERO];
    } else {
      IncrementLastDigit([], ZERO + n as byte, true);
      assert DecimalText(n) == [] + [ZERO + n as byte];
    }
  }

  /** Within twenty digits, `increment` on a decimal rendering yields the
      rendering of the next number; room to grow is there exactly when the
      numeral is shorter than twenty digits. */
  lemma IncrementDecimalBounded(n: nat)
    requires n + 1 < Pow10(20)
    ensures |DecimalText(n)| <= 20
    ensures Incremented(DecimalText(n), |DecimalText(n)| < 20) == DecimalText(n + 1)
  {
    var d := DecimalText(n);
    DecimalTextLength(n, 20);
    IncrementDecimal(n);
    if |d| == 20 {
      AddOneValue(d);
      DecimalTextValue(n);
      assert !AddOne(d).carry;
    }
  }

  /** The 21-byte buffer `b` part-way through the carry loop: bytes after
      `p` up to byte 19 reset to `'0'`, the NUL at byte 20, the rest as
      in `b`. */
  function Carrying(b: seq<byte>, p: int): (r: seq<byte>)
    requires |b| == 21 && -1 <= p <= 19
    ensures |r| == 21
  {
    b[..p + 1] + Repeat(ZERO, 19 - p) + [NUL]
  }

  /** One more nine reset by the loop (line 48). */
  lemma CarryNine(b: seq<byte>, p: nat)
    requires |b| == 21 && p <= 19
    ensures Carrying(b, p)[p := ZERO] == Carrying(b, p - 1)
  {
  }

  /** The carry stopping at byte `p` (lines 50-52): the buffer then holds
      the carried digits of the numeral from `first`, and nothing before
      `first` has moved. */
  lemma CarryStops(b: seq<byte>, first: nat, p: nat)
    requires |b| == 21 && first <= p <= 19 && b[p] < NINE && AllNines(b[p + 1..20])
    ensures AddOne(b[first..20]) == Carried(Carrying(b, p)[p := b[p] + 1][first..20], false)
    ensures Carrying(b, p)[p := b[p] + 1][..first] == b[..first]
    ensures Carrying(b, p)[p := b[p] + 1][20] == NUL
  {
    assert b[first..20] == b[first..p] + [b[p]] + b[p + 1..20];
    BumpDigit(b[first..p], b[p], b[p + 1..20]);
    assert Carrying(b, p)[p := b[p] + 1][first..20] ==
           b[first..p] + [b[p] + 1] + Repeat(ZERO, 19 - p);
  }

  /** The carry running off the numeral that starts at `first`: it is all
      zeros and a carry comes out; nothing before `first` has moved. */
  lemma CarryRunsOut(b: seq<byte>, first: nat)
    requires |b| == 21 && first <= 19 && AllNines(b[first..20])
    ensures AddOne(b[first..20]) == Carried(Carrying(b, first - 1)[first..20], true)
    ensures Carrying(b, first - 1)[..first] == b[..first]
  {
    NinesToZeros(b[first..20]);
    assert Carrying(b, first - 1)[first..20] == Repeat(ZERO, 20 - first);
  }

  /** `StrRepDecimal`: the buffer `d_buf` and the offset of `d_first`. */
  class StrRepDecimal {
    const buf: array<byte>
    var first: nat

    /** The layout every member keeps: 21 bytes, the numeral in
        `[first, 19]` made of decimal digits, a NUL at byte 20. */
    ghost predicate Valid()
      reads this, buf
    {
      buf.Length == 21 && first <= 19 && buf[20] == NUL &&
      AllDigits(buf[first..20])
    }

    /** `c_str()` (line 66): the numeral, from `d_first` up to byte 19. */
    function CStr(): (r: seq<byte>)
      requires Valid()
      reads this, buf
      ensures 1 <= |r| <= 20 && AllDigits(r)
    {
      buf[first..20]
    }

    /** What `c_str()` hands out is a C string whose text is the numeral:
        the NUL at byte 20 ends it and no digit before it is NUL. */
    lemma CStrIsCString()
      requires Valid()
      ensures CStr() == UpToNul(buf[first..])
    {
      var s := buf[first..];
      forall k | 0 <= k < 20 - first
        ensures s[k] != NUL
      {
        assert s[k] == buf[first..20][k];
      }
      assert s[20 - first] == NUL;
    }

    /** `StrRepDecimal()` (lines 19-24): the numeral `"0"` at byte 19. The
        bytes before it are left as they are in the source; here they are
        zero. */
    constructor ()
      ensures Valid() && fresh(buf)
      ensures first == 19 && CStr() == [ZERO]
    {
      var a := new byte[21];
      a[19] := ZERO;
      a[20] := NUL;
      assert a[19..20] == [ZERO] && AllDigits(a[19..20]);
      buf := a;
      first := 19;
    }

    /** The copy constructor (lines 31-35): a fresh buffer with the same 21
        bytes and the same offset of `d_first`. */
    constructor Copy(other: StrRepDecimal)
      requires other.Valid()
      ensures Valid() && fresh(buf)
      ensures buf[..] == other.buf[..] && first == other.first
      ensures CStr() == other.CStr()
    {
      var a := new byte[21];
      for k := 0 to 21
        invariant forall j :: 0 <= j < k ==> a[j] == other.buf[j]
      {
        a[k] := other.buf[k];
      }
      assert a[..] == other.buf[..];
      assert a[other.first..20] == other.buf[other.first..20];
      buf := a;
      first := other.first;
    }

    /** The loop of lines 45-54: from byte 19 leftwards, a nine becomes a
        zero and the carry moves on, until a byte below `'9'` is bumped and
        `increment` returns (`stopped`), or the numeral runs out. The
        numeral becomes the carried digits; nothing outside it is written. */
    method Carry() returns (stopped: bool)
      requires Valid()
      modifies buf
      ensures buf[first..20] == AddOne(old(CStr())).digits
      ensures stopped == !AddOne(old(CStr())).carry
      ensures buf[..first] == old(buf[..first]) && buf[20] == NUL
    {
      ghost var b := buf[..];
      var p: int := 19;
      while p >= first
        invariant first - 1 <= p <= 19
        invariant buf[..] == Carrying(b, p)
        invariant AllNines(b[p + 1..20])
        decreases p
      {
        ghost var before := buf[..];
        if buf[p] >= NINE {
          buf[p] := ZERO;
          assert buf[..] == before[p := ZERO];
          CarryNine(b, p);
        } else {
          buf[p] := buf[p] + 1;
          assert buf[..] == before[p := b[p] + 1];
          CarryStops(b, first, p);
          assert buf[first..20] == buf[..][first..20];
          assert buf[..first] == buf[..][..first];
          return true;
        }
        p := p - 1;
      }
      CarryRunsOut(b, first);
      assert buf[first..20] == buf[..][first..20];
      assert buf[..first] == buf[..][..first];
      return false;
    }

    /** `increment()` (lines 43-58). The new numeral is the old one with
        one added by the ripple carry, and a `'1'` put before it when the
        carry comes out and `d_first` can move left; nothing before the new
        `d_first` is written. */
    method Increment()
      requires Valid()
      modifies this, buf
      ensures Valid()
      ensures CStr() == Incremented(old(CStr()), old(first) > 0)
      ensures forall k :: 0 <= k < first ==> buf[k] == old(buf[k])
    {
      ghost var d := CStr();
      var stopped := Carry();
      assert AllDigits(buf[first..20]) by { AddOneValue(d); }
      if stopped {
        return;
      }
      if first > 0 {
        ghost var z := buf[first..20];
        ghost var y := buf[..first];
        first := first - 1;
        buf[first] := ONE;
        assert buf[first..20] == [ONE] + z;
        assert buf[..first] == y[..first];
      }
    }

    /** `operator++()` (lines 60-64): one `increment`, then `c_str()`. */
    method PreIncrement() returns (r: seq<byte>)
      requires Valid()
      modifies this, buf
      ensures Valid()
      ensures r == CStr() && r == Incremented(old(CStr()), old(first) > 0)
    {
      Increment();
      r := CStr();
    }
  }
}
