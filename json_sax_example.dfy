/** The driver in test.cc:45-50 parses one fixed document with a callback
    that always answers 0 (test.cc:6-42). These lemmas follow that parse
    from start to end with the lemmas of `JsonSaxProps`. */
module JsonSaxExample {
  import opened Bytes
  import opened JsonValue
  import opened JsonSax
  import opened JsonSaxProps

  /** The 28 bytes of the document at test.cc:46. */
  const SAMPLE: seq<byte> := FromString("{\"a\": [{\"b\": 2}, 3.5, null]}")

  /** The sample, byte by byte. */
  lemma SampleBytes()
    ensures |SAMPLE| == 28
    ensures SAMPLE[0] == '{' as byte && SAMPLE[1] == QUOTE && SAMPLE[2] == 'a' as byte && SAMPLE[3] == QUOTE
    ensures SAMPLE[4] == ':' as byte && SAMPLE[5] == SPACE && SAMPLE[6] == '[' as byte && SAMPLE[7] == '{' as byte
    ensures SAMPLE[8] == QUOTE && SAMPLE[9] == 'b' as byte && SAMPLE[10] == QUOTE && SAMPLE[11] == ':' as byte
    ensures SAMPLE[12] == SPACE && SAMPLE[13] == '2' as byte && SAMPLE[14] == '}' as byte && SAMPLE[15] == ',' as byte
    ensures SAMPLE[16] == SPACE && SAMPLE[17] == '3' as byte && SAMPLE[18] == '.' as byte && SAMPLE[19] == '5' as byte
    ensures SAMPLE[20] == ',' as byte && SAMPLE[21] == SPACE && SAMPLE[22] == 'n' as byte && SAMPLE[23] == 'u' as byte
    ensures SAMPLE[24] == 'l' as byte && SAMPLE[25] == 'l' as byte && SAMPLE[26] == ']' as byte && SAMPLE[27] == '}' as byte
  {
  }

  /** The state after one delimiter. */
  lemma OneDelimiter(st: Scan, c: byte)
    ensures AfterDelimiters(st, [c]) == st.(event := LastEvent(st.event, DelimiterEvents(c)), calls := st.calls + DelimiterEvents(c))
  {
    assert [c][1..] == [];
    assert EventsOf([c]) == DelimiterEvents(c) + [];
    assert DelimiterEvents(c) + [] == DelimiterEvents(c);
  }

  /** One plain byte outside a literal and outside the numeric hypothesis. */
  lemma PlainByte(s: seq<byte>, i: nat, st: Scan, stop: nat -> bool)
    requires i < |s| && !st.escaped && !st.quoted && !st.number && IsPlain(s[i])
    requires st.cur != [] || !IsDigit(s[i])
    ensures Run(s, i, st, stop) ==
            Run(s, i + 1, st.(cur := st.cur + if IsDigit(s[i]) then [s[i]] else [s[i], s[i]]), stop)
  {
    RunPlain(s, i, i + 1, st, stop);
    assert s[i..i + 1] == [s[i]];
    assert [s[i]][1..] == [];
  }

  // The two traces below go a few bytes at a time, each segment over any
  // buffer that holds the sample's bytes at the positions it reads.

  lemma SampleNotReadyPart0(s: seq<byte>, e: Event, stop: nat -> bool)
    requires |s| == 28 && s[0] == '{' as byte && s[1] == QUOTE && s[2] == 'a' as byte
    ensures Run(s, 0, Scan(false, false, false, false, e, [], Undefined, []), stop) ==
            Run(s, 3, Scan(false, false, false, false, ObjectStart, [], Undefined, [ObjectStart]), stop)
  {
    var s0 := Scan(false, false, false, false, e, [], Undefined, []);
    var s1 := Scan(false, false, false, false, ObjectStart, [], Undefined, [ObjectStart]);
    StepDelimiter(s, 0, s0, stop);
    OneDelimiter(s0, s[0]);
    assert s0.calls + [ObjectStart] == s1.calls;
    RunNext(s, 0, s0, stop, 1, s1);
    var s3 := Scan(false, false, false, false, ObjectStart, [], Undefined, [ObjectStart]);
    RunQuoteNotReady(s, 1, s1, stop);
  }

  lemma SampleNotReadyPart1(s: seq<byte>, stop: nat -> bool)
    requires |s| == 28 && s[3] == QUOTE && s[4] == ':' as byte && s[5] == SPACE
    ensures Run(s, 3, Scan(false, false, false, false, ObjectStart, [], Undefined, [ObjectStart]), stop) ==
            Run(s, 6, Scan(false, false, false, false, ObjectStart, [], Undefined, [ObjectStart]), stop)
  {
    var s3 := Scan(false, false, false, false, ObjectStart, [], Undefined, [ObjectStart]);
    var s5 := Scan(false, false, false, false, ObjectStart, [], Undefined, [ObjectStart]);
    RunQuoteNotReady(s, 3, s3, stop);
    var s6 := Scan(false, false, false, false, ObjectStart, [], Undefined, [ObjectStart]);
    StepDelimiter(s, 5, s5, stop);
    OneDelimiter(s5, s[5]);
    RunNext(s, 5, s5, stop, 6, s6);
  }

  lemma SampleNotReadyPart2(s: seq<byte>, stop: nat -> bool)
    requires |s| == 28 && s[6] == '[' as byte && s[7] == '{' as byte
    ensures Run(s, 6, Scan(false, false, false, false, ObjectStart, [], Undefined, [ObjectStart]), stop) ==
            Run(s, 8, Scan(false, false, false, false, ObjectStart, ['[' as byte, '[' as byte], Undefined, [ObjectStart, ObjectStart]), stop)
  {
    var s6 := Scan(false, false, false, false, ObjectStart, [], Undefined, [ObjectStart]);
    var s7 := Scan(false, false, false, false, ObjectStart, ['[' as byte, '[' as byte], Undefined, [ObjectStart]);
    PlainByte(s, 6, s6, stop);
    assert s6.cur + [s[6], s[6]] == s7.cur;
    var s8 := Scan(false, false, false, false, ObjectStart, ['[' as byte, '[' as byte], Undefined, [ObjectStart, ObjectStart]);
    StepDelimiter(s, 7, s7, stop);
    OneDelimiter(s7, s[7]);
    assert s7.calls + [ObjectStart] == s8.calls;
    RunNext(s, 7, s7, stop, 8, s8);
  }

  lemma SampleNotReadyPart3(s: seq<byte>, stop: nat -> bool)
    requires |s| == 28 && s[8] == QUOTE && s[9] == 'b' as byte && s[10] == QUOTE && s[11] == ':' as byte
    ensures Run(s, 8, Scan(false, false, false, false, ObjectStart, ['[' as byte, '[' as byte], Undefined, [ObjectStart, ObjectStart]), stop) ==
            Run(s, 12, Scan(false, false, false, false, ObjectStart, ['[' as byte, '[' as byte], Undefined, [ObjectStart, ObjectStart]), stop)
  {
    var s8 := Scan(false, false, false, false, ObjectStart, ['[' as byte, '[' as byte], Undefined, [ObjectStart, ObjectStart]);
    var s10 := Scan(false, false, false, false, ObjectStart, ['[' as byte, '[' as byte], Undefined, [ObjectStart, ObjectStart]);
    RunQuoteNotReady(s, 8, s8, stop);
    var s12 := Scan(false, false, false, false, ObjectStart, ['[' as byte, '[' as byte], Undefined, [ObjectStart, ObjectStart]);
    RunQuoteNotReady(s, 10, s10, stop);
  }

  lemma SampleNotReadyPart4(s: seq<byte>, stop: nat -> bool)
    requires |s| == 28 && s[12] == SPACE && s[13] == '2' as byte
    ensures Run(s, 12, Scan(false, false, false, false, ObjectStart, ['[' as byte, '[' as byte], Undefined, [ObjectStart, ObjectStart]), stop) ==
            Run(s, 14, Scan(false, false, false, false, ObjectStart, ['[' as byte, '[' as byte, '2' as byte], Undefined, [ObjectStart, ObjectStart]), stop)
  {
    var s12 := Scan(false, false, false, false, ObjectStart, ['[' as byte, '[' as byte], Undefined, [ObjectStart, ObjectStart]);
    var s13 := Scan(false, false, false, false, ObjectStart, ['[' as byte, '[' as byte], Undefined, [ObjectStart, ObjectStart]);
    StepDelimiter(s, 12, s12, stop);
    OneDelimiter(s12, s[12]);
    RunNext(s, 12, s12, stop, 13, s13);
    var s14 := Scan(false, false, false, false, ObjectStart, ['[' as byte, '[' as byte, '2' as byte], Undefined, [ObjectStart, ObjectStart]);
    PlainByte(s, 13, s13, stop);
    assert s13.cur + [s[13]] == s14.cur;
  }

  lemma SampleNotReadyPart5(s: seq<byte>, stop: nat -> bool)
    requires |s| == 28 && s[14] == '}' as byte && s[15] == ',' as byte
    ensures Run(s, 14, Scan(false, false, false, false, ObjectStart, ['[' as byte, '[' as byte, '2' as byte], Undefined, [ObjectStart, ObjectStart]), stop) ==
            Run(s, 16, Scan(false, false, false, false, ObjectEnd, ['[' as byte, '[' as byte, '2' as byte], Undefined, [ObjectStart, ObjectStart, NvpairValueEnd, ObjectEnd, NvpairValueEnd, ObjectEnd]), stop)
  {
    var s14 := Scan(false, false, false, false, ObjectStart, ['[' as byte, '[' as byte, '2' as byte], Undefined, [ObjectStart, ObjectStart]);
    var s15 := Scan(false, false, false, false, ObjectEnd, ['[' as byte, '[' as byte, '2' as byte], Undefined, [ObjectStart, ObjectStart, NvpairValueEnd, ObjectEnd]);
    StepDelimiter(s, 14, s14, stop);
    OneDelimiter(s14, s[14]);
    assert s14.calls + [NvpairValueEnd, ObjectEnd] == s15.calls;
    RunNext(s, 14, s14, stop, 15, s15);
    var s16 := Scan(false, false, false, false, ObjectEnd, ['[' as byte, '[' as byte, '2' as byte], Undefined, [ObjectStart, ObjectStart, NvpairValueEnd, ObjectEnd, NvpairValueEnd, ObjectEnd]);
    StepDelimiter(s, 15, s15, stop);
    OneDelimiter(s15, s[15]);
    assert s15.calls + [NvpairValueEnd, ObjectEnd] == s16.calls;
    RunNext(s, 15, s15, stop, 16, s16);
  }

  lemma SampleNotReadyPart6(s: seq<byte>, stop: nat -> bool)
    requires |s| == 28 && s[16] == SPACE && s[17] == '3' as byte
    ensures Run(s, 16, Scan(false, false, false, false, ObjectEnd, ['[' as byte, '[' as byte, '2' as byte], Undefined, [ObjectStart, ObjectStart, NvpairValueEnd, ObjectEnd, NvpairValueEnd, ObjectEnd]), stop) ==
            Run(s, 18, Scan(false, false, false, false, ObjectEnd, ['[' as byte, '[' as byte, '2' as byte, '3' as byte], Undefined, [ObjectStart, ObjectStart, NvpairValueEnd, ObjectEnd, NvpairValueEnd, ObjectEnd]), stop)
  {
    var s16 := Scan(false, false, false, false, ObjectEnd, ['[' as byte, '[' as byte, '2' as byte], Undefined, [ObjectStart, ObjectStart, NvpairValueEnd, ObjectEnd, NvpairValueEnd, ObjectEnd]);
    var s17 := Scan(false, false, false, false, ObjectEnd, ['[' as byte, '[' as byte, '2' as byte], Undefined, [ObjectStart, ObjectStart, NvpairValueEnd, ObjectEnd, NvpairValueEnd, ObjectEnd]);
    StepDelimiter(s, 16, s16, stop);
    OneDelimiter(s16, s[16]);
    RunNext(s, 16, s16, stop, 17, s17);
    var s18 := Scan(false, false, false, false, ObjectEnd, ['[' as byte, '[' as byte, '2' as byte, '3' as byte], Undefined, [ObjectStart, ObjectStart, NvpairValueEnd, ObjectEnd, NvpairValueEnd, ObjectEnd]);
    PlainByte(s, 17, s17, stop);
    assert s17.cur + [s[17]] == s18.cur;
  }

  lemma SampleNotReadyPart7(s: seq<byte>, stop: nat -> bool)
    requires |s| == 28 && s[18] == '.' as byte && s[19] == '5' as byte
    ensures Run(s, 18, Scan(false, false, false, false, ObjectEnd, ['[' as byte, '[' as byte, '2' as byte, '3' as byte], Undefined, [ObjectStart, ObjectStart, NvpairValueEnd, ObjectEnd, NvpairValueEnd, ObjectEnd]), stop) ==
            Run(s, 20, Scan(false, false, false, false, ObjectEnd, ['[' as byte, '[' as byte, '2' as byte, '3' as byte, '.' as byte, '.' as byte, '5' as byte], Undefined, [ObjectStart, ObjectStart, NvpairValueEnd, ObjectEnd, NvpairValueEnd, ObjectEnd]), stop)
  {
    var s18 := Scan(false, false, false, false, ObjectEnd, ['[' as byte, '[' as byte, '2' as byte, '3' as byte], Undefined, [ObjectStart, ObjectStart, NvpairValueEnd, ObjectEnd, NvpairValueEnd, ObjectEnd]);
    var s19 := Scan(false, false, false, false, ObjectEnd, ['[' as byte, '[' as byte, '2' as byte, '3' as byte, '.' as byte, '.' as byte], Undefined, [ObjectStart, ObjectStart, NvpairValueEnd, ObjectEnd, NvpairValueEnd, ObjectEnd]);
    PlainByte(s, 18, s18, stop);
    assert s18.cur + [s[18], s[18]] == s19.cur;
    var s20 := Scan(false, false, false, false, ObjectEnd, ['[' as byte, '[' as byte, '2' as byte, '3' as byte, '.' as byte, '.' as byte, '5' as byte], Undefined, [ObjectStart, ObjectStart, NvpairValueEnd, ObjectEnd, NvpairValueEnd, ObjectEnd]);
    PlainByte(s, 19, s19, stop);
    assert s19.cur + [s[19]] == s20.cur;
  }

  lemma SampleNotReadyPart8(s: seq<byte>, stop: nat -> bool)
    requires |s| == 28 && s[20] == ',' as byte && s[21] == SPACE
    ensures Run(s, 20, Scan(false, false, false, false, ObjectEnd, ['[' as byte, '[' as byte, '2' as byte, '3' as byte, '.' as byte, '.' as byte, '5' as byte], Undefined, [ObjectStart, ObjectStart, NvpairValueEnd, ObjectEnd, NvpairValueEnd, ObjectEnd]), stop) ==
            Run(s, 22, Scan(false, false, false, false, ObjectEnd, ['[' as byte, '[' as byte, '2' as byte, '3' as byte, '.' as byte, '.' as byte, '5' as byte], Undefined, [ObjectStart, ObjectStart, NvpairValueEnd, ObjectEnd, NvpairValueEnd, ObjectEnd, NvpairValueEnd, ObjectEnd]), stop)
  {
    var s20 := Scan(false, false, false, false, ObjectEnd, ['[' as byte, '[' as byte, '2' as byte, '3' as byte, '.' as byte, '.' as byte, '5' as byte], Undefined, [ObjectStart, ObjectStart, NvpairValueEnd, ObjectEnd, NvpairValueEnd, ObjectEnd]);
    var s21 := Scan(false, false, false, false, ObjectEnd, ['[' as byte, '[' as byte, '2' as byte, '3' as byte, '.' as byte, '.' as byte, '5' as byte], Undefined, [ObjectStart, ObjectStart, NvpairValueEnd, ObjectEnd, NvpairValueEnd, ObjectEnd, NvpairValueEnd, ObjectEnd]);
    StepDelimiter(s, 20, s20, stop);
    OneDelimiter(s20, s[20]);
    assert s20.calls + [NvpairValueEnd, ObjectEnd] == s21.calls;
    RunNext(s, 20, s20, stop, 21, s21);
    var s22 := Scan(false, false, false, false, ObjectEnd, ['[' as byte, '[' as byte, '2' as byte, '3' as byte, '.' as byte, '.' as byte, '5' as byte], Undefined, [ObjectStart, ObjectStart, NvpairValueEnd, ObjectEnd, NvpairValueEnd, ObjectEnd, NvpairValueEnd, ObjectEnd]);
    StepDelimiter(s, 21, s21, stop);
    OneDelimiter(s21, s[21]);
    RunNext(s, 21, s21, stop, 22, s22);
  }

  lemma SampleNotReadyPart9(s: seq<byte>, stop: nat -> bool)
    requires |s| == 28 && s[22] == 'n' as byte && s[23] == 'u' as byte
    ensures Run(s, 22, Scan(false, false, false, false, ObjectEnd, ['[' as byte, '[' as byte, '2' as byte, '3' as byte, '.' as byte, '.' as byte, '5' as byte], Undefined, [ObjectStart, ObjectStart, NvpairValueEnd, ObjectEnd, NvpairValueEnd, ObjectEnd, NvpairValueEnd, ObjectEnd]), stop) ==
            Run(s, 24, Scan(false, false, false, false, ObjectEnd, ['[' as byte, '[' as byte, '2' as byte, '3' as byte, '.' as byte, '.' as byte, '5' as byte, 'n' as byte, 'n' as byte, 'u' as byte, 'u' as byte], Undefined, [ObjectStart, ObjectStart, NvpairValueEnd, ObjectEnd, NvpairValueEnd, ObjectEnd, NvpairValueEnd, ObjectEnd]), stop)
  {
    var s22 := Scan(false, false, false, false, ObjectEnd, ['[' as byte, '[' as byte, '2' as byte, '3' as byte, '.' as byte, '.' as byte, '5' as byte], Undefined, [ObjectStart, ObjectStart, NvpairValueEnd, ObjectEnd, NvpairValueEnd, ObjectEnd, NvpairValueEnd, ObjectEnd]);
    var s23 := Scan(false, false, false, false, ObjectEnd, ['[' as byte, '[' as byte, '2' as byte, '3' as byte, '.' as byte, '.' as byte, '5' as byte, 'n' as byte, 'n' as byte], Undefined, [ObjectStart, ObjectStart, NvpairValueEnd, ObjectEnd, NvpairValueEnd, ObjectEnd, NvpairValueEnd, ObjectEnd]);
    PlainByte(s, 22, s22, stop);
    assert s22.cur + [s[22], s[22]] == s23.cur;
    var s24 := Scan(false, false, false, false, ObjectEnd, ['[' as byte, '[' as byte, '2' as byte, '3' as byte, '.' as byte, '.' as byte, '5' as byte, 'n' as byte, 'n' as byte, 'u' as byte, 'u' as byte], Undefined, [ObjectStart, ObjectStart, NvpairValueEnd, ObjectEnd, NvpairValueEnd, ObjectEnd, NvpairValueEnd, ObjectEnd]);
    PlainByte(s, 23, s23, stop);
    assert s23.cur + [s[23], s[23]] == s24.cur;
  }

  lemma SampleNotReadyPart10(s: seq<byte>, stop: nat -> bool)
    requires |s| == 28 && s[24] == 'l' as byte && s[25] == 'l' as byte
    ensures Run(s, 24, Scan(false, false, false, false, ObjectEnd, ['[' as byte, '[' as byte, '2' as byte, '3' as byte, '.' as byte, '.' as byte, '5' as byte, 'n' as byte, 'n' as byte, 'u' as byte, 'u' as byte], Undefined, [ObjectStart, ObjectStart, NvpairValueEnd, ObjectEnd, NvpairValueEnd, ObjectEnd, NvpairValueEnd, ObjectEnd]), stop) ==
            Run(s, 26, Scan(false, false, false, false, ObjectEnd, ['[' as byte, '[' as byte, '2' as byte, '3' as byte, '.' as byte, '.' as byte, '5' as byte, 'n' as byte, 'n' as byte, 'u' as byte, 'u' as byte, 'l' as byte, 'l' as byte, 'l' as byte, 'l' as byte], Undefined, [ObjectStart, ObjectStart, NvpairValueEnd, ObjectEnd, NvpairValueEnd, ObjectEnd, NvpairValueEnd, ObjectEnd]), stop)
  {
    var s24 := Scan(false, false, false, false, ObjectEnd, ['[' as byte, '[' as byte, '2' as byte, '3' as byte, '.' as byte, '.' as byte, '5' as byte, 'n' as byte, 'n' as byte, 'u' as byte, 'u' as byte], Undefined, [ObjectStart, ObjectStart, NvpairValueEnd, ObjectEnd, NvpairValueEnd, ObjectEnd, NvpairValueEnd, ObjectEnd]);
    var s25 := Scan(false, false, false, false, ObjectEnd, ['[' as byte, '[' as byte, '2' as byte, '3' as byte, '.' as byte, '.' as byte, '5' as byte, 'n' as byte, 'n' as byte, 'u' as byte, 'u' as byte, 'l' as byte, 'l' as byte], Undefined, [ObjectStart, ObjectStart, NvpairValueEnd, ObjectEnd, NvpairValueEnd, ObjectEnd, NvpairValueEnd, ObjectEnd]);
    PlainByte(s, 24, s24, stop);
    assert s24.cur + [s[24], s[24]] == s25.cur;
    var s26 := Scan(false, false, false, false, ObjectEnd, ['[' as byte, '[' as byte, '2' as byte, '3' as byte, '.' as byte, '.' as byte, '5' as byte, 'n' as byte, 'n' as byte, 'u' as byte, 'u' as byte, 'l' as byte, 'l' as byte, 'l' as byte, 'l' as byte], Undefined, [ObjectStart, ObjectStart, NvpairValueEnd, ObjectEnd, NvpairValueEnd, ObjectEnd, NvpairValueEnd, ObjectEnd]);
    PlainByte(s, 25, s25, stop);
    assert s25.cur + [s[25], s[25]] == s26.cur;
  }

  lemma SampleNotReadyPart11(s: seq<byte>, stop: nat -> bool)
    requires |s| == 28 && s[26] == ']' as byte && s[27] == '}' as byte
    ensures Run(s, 26, Scan(false, false, false, false, ObjectEnd, ['[' as byte, '[' as byte, '2' as byte, '3' as byte, '.' as byte, '.' as byte, '5' as byte, 'n' as byte, 'n' as byte, 'u' as byte, 'u' as byte, 'l' as byte, 'l' as byte, 'l' as byte, 'l' as byte], Undefined, [ObjectStart, ObjectStart, NvpairValueEnd, ObjectEnd, NvpairValueEnd, ObjectEnd, NvpairValueEnd, ObjectEnd]), stop) ==
            Run(s, 28, Scan(false, false, false, false, ObjectEnd, ['[' as byte, '[' as byte, '2' as byte, '3' as byte, '.' as byte, '.' as byte, '5' as byte, 'n' as byte, 'n' as byte, 'u' as byte, 'u' as byte, 'l' as byte, 'l' as byte, 'l' as byte, 'l' as byte, ']' as byte, ']' as byte], Undefined, [ObjectStart, ObjectStart, NvpairValueEnd, ObjectEnd, NvpairValueEnd, ObjectEnd, NvpairValueEnd, ObjectEnd, NvpairValueEnd, ObjectEnd]), stop)
  {
    var s26 := Scan(false, false, false, false, ObjectEnd, ['[' as byte, '[' as byte, '2' as byte, '3' as byte, '.' as byte, '.' as byte, '5' as byte, 'n' as byte, 'n' as byte, 'u' as byte, 'u' as byte, 'l' as byte, 'l' as byte, 'l' as byte, 'l' as byte], Undefined, [ObjectStart, ObjectStart, NvpairValueEnd, ObjectEnd, NvpairValueEnd, ObjectEnd, NvpairValueEnd, ObjectEnd]);
    var s27 := Scan(false, false, false, false, ObjectEnd, ['[' as byte, '[' as byte, '2' as byte, '3' as byte, '.' as byte, '.' as byte, '5' as byte, 'n' as byte, 'n' as byte, 'u' as byte, 'u' as byte, 'l' as byte, 'l' as byte, 'l' as byte, 'l' as byte, ']' as byte, ']' as byte], Undefined, [ObjectStart, ObjectStart, NvpairValueEnd, ObjectEnd, NvpairValueEnd, ObjectEnd, NvpairValueEnd, ObjectEnd]);
    PlainByte(s, 26, s26, stop);
    assert s26.cur + [s[26], s[26]] == s27.cur;
    var s28 := Scan(false, false, false, false, ObjectEnd, ['[' as byte, '[' as byte, '2' as byte, '3' as byte, '.' as byte, '.' as byte, '5' as byte, 'n' as byte, 'n' as byte, 'u' as byte, 'u' as byte, 'l' as byte, 'l' as byte, 'l' as byte, 'l' as byte, ']' as byte, ']' as byte], Undefined, [ObjectStart, ObjectStart, NvpairValueEnd, ObjectEnd, NvpairValueEnd, ObjectEnd, NvpairValueEnd, ObjectEnd, NvpairValueEnd, ObjectEnd]);
    StepDelimiter(s, 27, s27, stop);
    OneDelimiter(s27, s[27]);
    assert s27.calls + [NvpairValueEnd, ObjectEnd] == s28.calls;
    RunNext(s, 27, s27, stop, 28, s28);
  }

  /** With `d_readyForValue` false, the sample is scanned to its end with
      `ERR_OK` whatever the callback answers; it sees two object starts and
      four end pairs, the `:` after each name is swallowed by the one-byte
      literal, no value is decoded, and the token accumulates every unquoted
      byte that is not a delimiter, non-digits twice. */
  lemma SampleNotReady(e: Event, stop: nat -> bool)
    ensures Run(SAMPLE, 0, Start(false, e, [], Undefined, []), stop) ==
            Outcome(Ok, Scan(false, false, false, false, ObjectEnd, ['[' as byte, '[' as byte, '2' as byte, '3' as byte, '.' as byte, '.' as byte, '5' as byte, 'n' as byte, 'n' as byte, 'u' as byte, 'u' as byte, 'l' as byte, 'l' as byte, 'l' as byte, 'l' as byte, ']' as byte, ']' as byte], Undefined, [ObjectStart, ObjectStart, NvpairValueEnd, ObjectEnd, NvpairValueEnd, ObjectEnd, NvpairValueEnd, ObjectEnd, NvpairValueEnd, ObjectEnd]), 28)
  {
    SampleBytes();
    SampleNotReadyPart0(SAMPLE, e, stop);
    SampleNotReadyPart1(SAMPLE, stop);
    SampleNotReadyPart2(SAMPLE, stop);
    SampleNotReadyPart3(SAMPLE, stop);
    SampleNotReadyPart4(SAMPLE, stop);
    SampleNotReadyPart5(SAMPLE, stop);
    SampleNotReadyPart6(SAMPLE, stop);
    SampleNotReadyPart7(SAMPLE, stop);
    SampleNotReadyPart8(SAMPLE, stop);
    SampleNotReadyPart9(SAMPLE, stop);
    SampleNotReadyPart10(SAMPLE, stop);
    SampleNotReadyPart11(SAMPLE, stop);
  }

  lemma SampleReadyPart0(s: seq<byte>, e: Event, stop: nat -> bool)
    requires |s| == 28 && s[0] == '{' as byte && s[1] == QUOTE
    ensures Run(s, 0, Scan(false, false, false, true, e, [], Undefined, []), stop) ==
            Run(s, 2, Scan(true, false, false, true, ObjectStart, [], Undefined, [ObjectStart]), stop)
  {
    var s0 := Scan(false, false, false, true, e, [], Undefined, []);
    var s1 := Scan(false, false, false, true, ObjectStart, [], Undefined, [ObjectStart]);
    StepDelimiter(s, 0, s0, stop);
    OneDelimiter(s0, s[0]);
    assert s0.calls + [ObjectStart] == s1.calls;
    RunNext(s, 0, s0, stop, 1, s1);
    var s2 := Scan(true, false, false, true, ObjectStart, [], Undefined, [ObjectStart]);
    assert Step(s, 1, s1, stop) == Next(2, s2);
    RunNext(s, 1, s1, stop, 2, s2);
  }

  lemma SampleReadyPart1(s: seq<byte>, stop: nat -> bool)
    requires |s| == 28 && s[2] == 'a' as byte && s[3] == QUOTE
    requires !stop(1)
    ensures Run(s, 2, Scan(true, false, false, true, ObjectStart, [], Undefined, [ObjectStart]), stop) ==
            Run(s, 4, Scan(false, false, false, false, ObjectStart, [], String([]), [ObjectStart, ObjectStart]), stop)
  {
    var s2 := Scan(true, false, false, true, ObjectStart, [], Undefined, [ObjectStart]);
    var s3 := Scan(true, false, false, false, ObjectStart, [], Undefined, [ObjectStart, ObjectStart]);
    assert Step(s, 2, s2, stop) == Next(3, s3);
    RunNext(s, 2, s2, stop, 3, s3);
    var s4 := Scan(false, false, false, false, ObjectStart, [], String([]), [ObjectStart, ObjectStart]);
    assert Step(s, 3, s3, stop) == Next(4, s4);
    RunNext(s, 3, s3, stop, 4, s4);
  }

  lemma SampleReadyPart2(s: seq<byte>, stop: nat -> bool)
    requires |s| == 28 && s[4] == ':' as byte && s[5] == SPACE
    ensures Run(s, 4, Scan(false, false, false, false, ObjectStart, [], String([]), [ObjectStart, ObjectStart]), stop) ==
            Run(s, 6, Scan(false, false, false, false, NvpairValueStart, [], String([]), [ObjectStart, ObjectStart, NvpairValueStart]), stop)
  {
    var s4 := Scan(false, false, false, false, ObjectStart, [], String([]), [ObjectStart, ObjectStart]);
    var s5 := Scan(false, false, false, false, NvpairValueStart, [], String([]), [ObjectStart, ObjectStart, NvpairValueStart]);
    StepDelimiter(s, 4, s4, stop);
    OneDelimiter(s4, s[4]);
    assert s4.calls + [NvpairValueStart] == s5.calls;
    RunNext(s, 4, s4, stop, 5, s5);
    var s6 := Scan(false, false, false, false, NvpairValueStart, [], String([]), [ObjectStart, ObjectStart, NvpairValueStart]);
    StepDelimiter(s, 5, s5, stop);
    OneDelimiter(s5, s[5]);
    RunNext(s, 5, s5, stop, 6, s6);
  }

  lemma SampleReadyPart3(s: seq<byte>, stop: nat -> bool)
    requires |s| == 28 && s[6] == '[' as byte && s[7] == '{' as byte
    ensures Run(s, 6, Scan(false, false, false, false, NvpairValueStart, [], String([]), [ObjectStart, ObjectStart, NvpairValueStart]), stop) ==
            Run(s, 8, Scan(false, false, false, false, ObjectStart, ['[' as byte, '[' as byte], String([]), [ObjectStart, ObjectStart, NvpairValueStart, ObjectStart]), stop)
  {
    var s6 := Scan(false, false, false, false, NvpairValueStart, [], String([]), [ObjectStart, ObjectStart, NvpairValueStart]);
    var s7 := Scan(false, false, false, false, NvpairValueStart, ['[' as byte, '[' as byte], String([]), [ObjectStart, ObjectStart, NvpairValueStart]);
    PlainByte(s, 6, s6, stop);
    assert s6.cur + [s[6], s[6]] == s7.cur;
    var s8 := Scan(false, false, false, false, ObjectStart, ['[' as byte, '[' as byte], String([]), [ObjectStart, ObjectStart, NvpairValueStart, ObjectStart]);
    StepDelimiter(s, 7, s7, stop);
    OneDelimiter(s7, s[7]);
    assert s7.calls + [ObjectStart] == s8.calls;
    RunNext(s, 7, s7, stop, 8, s8);
  }

  lemma SampleReadyPart4(s: seq<byte>, stop: nat -> bool)
    requires |s| == 28 && s[8] == QUOTE && s[9] == 'b' as byte && s[10] == QUOTE && s[11] == ':' as byte
    ensures Run(s, 8, Scan(false, false, false, false, ObjectStart, ['[' as byte, '[' as byte], String([]), [ObjectStart, ObjectStart, NvpairValueStart, ObjectStart]), stop) ==
            Run(s, 12, Scan(false, false, false, false, ObjectStart, ['[' as byte, '[' as byte], String([]), [ObjectStart, ObjectStart, NvpairValueStart, ObjectStart]), stop)
  {
    var s8 := Scan(false, false, false, false, ObjectStart, ['[' as byte, '[' as byte], String([]), [ObjectStart, ObjectStart, NvpairValueStart, ObjectStart]);
    var s10 := Scan(false, false, false, false, ObjectStart, ['[' as byte, '[' as byte], String([]), [ObjectStart, ObjectStart, NvpairValueStart, ObjectStart]);
    RunQuoteNotReady(s, 8, s8, stop);
    var s12 := Scan(false, false, false, false, ObjectStart, ['[' as byte, '[' as byte], String([]), [ObjectStart, ObjectStart, NvpairValueStart, ObjectStart]);
    RunQuoteNotReady(s, 10, s10, stop);
  }

  lemma SampleReadyPart5(s: seq<byte>, stop: nat -> bool)
    requires |s| == 28 && s[12] == SPACE && s[13] == '2' as byte
    ensures Run(s, 12, Scan(false, false, false, false, ObjectStart, ['[' as byte, '[' as byte], String([]), [ObjectStart, ObjectStart, NvpairValueStart, ObjectStart]), stop) ==
            Run(s, 14, Scan(false, false, false, false, ObjectStart, ['[' as byte, '[' as byte, '2' as byte], String([]), [ObjectStart, ObjectStart, NvpairValueStart, ObjectStart]), stop)
  {
    var s12 := Scan(false, false, false, false, ObjectStart, ['[' as byte, '[' as byte], String([]), [ObjectStart, ObjectStart, NvpairValueStart, ObjectStart]);
    var s13 := Scan(false, false, false, false, ObjectStart, ['[' as byte, '[' as byte], String([]), [ObjectStart, ObjectStart, NvpairValueStart, ObjectStart]);
    StepDelimiter(s, 12, s12, stop);
    OneDelimiter(s12, s[12]);
    RunNext(s, 12, s12, stop, 13, s13);
    var s14 := Scan(false, false, false, false, ObjectStart, ['[' as byte, '[' as byte, '2' as byte], String([]), [ObjectStart, ObjectStart, NvpairValueStart, ObjectStart]);
    PlainByte(s, 13, s13, stop);
    assert s13.cur + [s[13]] == s14.cur;
  }

  lemma SampleReadyPart6(s: seq<byte>, stop: nat -> bool)
    requires |s| == 28 && s[14] == '}' as byte && s[15] == ',' as byte
    ensures Run(s, 14, Scan(false, false, false, false, ObjectStart, ['[' as byte, '[' as byte, '2' as byte], String([]), [ObjectStart, ObjectStart, NvpairValueStart, ObjectStart]), stop) ==
            Run(s, 16, Scan(false, false, false, false, ObjectEnd, ['[' as byte, '[' as byte, '2' as byte], String([]), [ObjectStart, ObjectStart, NvpairValueStart, ObjectStart, NvpairValueEnd, ObjectEnd, NvpairValueEnd, ObjectEnd]), stop)
  {
    var s14 := Scan(false, false, false, false, ObjectStart, ['[' as byte, '[' as byte, '2' as byte], String([]), [ObjectStart, ObjectStart, NvpairValueStart, ObjectStart]);
    var s15 := Scan(false, false, false, false, ObjectEnd, ['[' as byte, '[' as byte, '2' as byte], String([]), [ObjectStart, ObjectStart, NvpairValueStart, ObjectStart, NvpairValueEnd, ObjectEnd]);
    StepDelimiter(s, 14, s14, stop);
    OneDelimiter(s14, s[14]);
    assert s14.calls + [NvpairValueEnd, ObjectEnd] == s15.calls;
    RunNext(s, 14, s14, stop, 15, s15);
    var s16 := Scan(false, false, false, false, ObjectEnd, ['[' as byte, '[' as byte, '2' as byte], String([]), [ObjectStart, ObjectStart, NvpairValueStart, ObjectStart, NvpairValueEnd, ObjectEnd, NvpairValueEnd, ObjectEnd]);
    StepDelimiter(s, 15, s15, stop);
    OneDelimiter(s15, s[15]);
    assert s15.calls + [NvpairValueEnd, ObjectEnd] == s16.calls;
    RunNext(s, 15, s15, stop, 16, s16);
  }

  lemma SampleReadyPart7(s: seq<byte>, stop: nat -> bool)
    requires |s| == 28 && s[16] == SPACE && s[17] == '3' as byte
    ensures Run(s, 16, Scan(false, false, false, false, ObjectEnd, ['[' as byte, '[' as byte, '2' as byte], String([]), [ObjectStart, ObjectStart, NvpairValueStart, ObjectStart, NvpairValueEnd, ObjectEnd, NvpairValueEnd, ObjectEnd]), stop) ==
            Run(s, 18, Scan(false, false, false, false, ObjectEnd, ['[' as byte, '[' as byte, '2' as byte, '3' as byte], String([]), [ObjectStart, ObjectStart, NvpairValueStart, ObjectStart, NvpairValueEnd, ObjectEnd, NvpairValueEnd, ObjectEnd]), stop)
  {
    var s16 := Scan(false, false, false, false, ObjectEnd, ['[' as byte, '[' as byte, '2' as byte], String([]), [ObjectStart, ObjectStart, NvpairValueStart, ObjectStart, NvpairValueEnd, ObjectEnd, NvpairValueEnd, ObjectEnd]);
    var s17 := Scan(false, false, false, false, ObjectEnd, ['[' as byte, '[' as byte, '2' as byte], String([]), [ObjectStart, ObjectStart, NvpairValueStart, ObjectStart, NvpairValueEnd, ObjectEnd, NvpairValueEnd, ObjectEnd]);
    StepDelimiter(s, 16, s16, stop);
    OneDelimiter(s16, s[16]);
    RunNext(s, 16, s16, stop, 17, s17);
    var s18 := Scan(false, false, false, false, ObjectEnd, ['[' as byte, '[' as byte, '2' as byte, '3' as byte], String([]), [ObjectStart, ObjectStart, NvpairValueStart, ObjectStart, NvpairValueEnd, ObjectEnd, NvpairValueEnd, ObjectEnd]);
    PlainByte(s, 17, s17, stop);
    assert s17.cur + [s[17]] == s18.cur;
  }

  lemma SampleReadyPart8(s: seq<byte>, stop: nat -> bool)
    requires |s| == 28 && s[18] == '.' as byte && s[19] == '5' as byte
    ensures Run(s, 18, Scan(false, false, false, false, ObjectEnd, ['[' as byte, '[' as byte, '2' as byte, '3' as byte], String([]), [ObjectStart, ObjectStart, NvpairValueStart, ObjectStart, NvpairValueEnd, ObjectEnd, NvpairValueEnd, ObjectEnd]), stop) ==
            Run(s, 20, Scan(false, false, false, false, ObjectEnd, ['[' as byte, '[' as byte, '2' as byte, '3' as byte, '.' as byte, '.' as byte, '5' as byte], String([]), [ObjectStart, ObjectStart, NvpairValueStart, ObjectStart, NvpairValueEnd, ObjectEnd, NvpairValueEnd, ObjectEnd]), stop)
  {
    var s18 := Scan(false, false, false, false, ObjectEnd, ['[' as byte, '[' as byte, '2' as byte, '3' as byte], String([]), [ObjectStart, ObjectStart, NvpairValueStart, ObjectStart, NvpairValueEnd, ObjectEnd, NvpairValueEnd, ObjectEnd]);
    var s19 := Scan(false, false, false, false, ObjectEnd, ['[' as byte, '[' as byte, '2' as byte, '3' as byte, '.' as byte, '.' as byte], String([]), [ObjectStart, ObjectStart, NvpairValueStart, ObjectStart, NvpairValueEnd, ObjectEnd, NvpairValueEnd, ObjectEnd]);
    PlainByte(s, 18, s18, stop);
    assert s18.cur + [s[18], s[18]] == s19.cur;
    var s20 := Scan(false, false, false, false, ObjectEnd, ['[' as byte, '[' as byte, '2' as byte, '3' as byte, '.' as byte, '.' as byte, '5' as byte], String([]), [ObjectStart, ObjectStart, NvpairValueStart, ObjectStart, NvpairValueEnd, ObjectEnd, NvpairValueEnd, ObjectEnd]);
    PlainByte(s, 19, s19, stop);
    assert s19.cur + [s[19]] == s20.cur;
  }

  lemma SampleReadyPart9(s: seq<byte>, stop: nat -> bool)
    requires |s| == 28 && s[20] == ',' as byte && s[21] == SPACE
    ensures Run(s, 20, Scan(false, false, false, false, ObjectEnd, ['[' as byte, '[' as byte, '2' as byte, '3' as byte, '.' as byte, '.' as byte, '5' as byte], String([]), [ObjectStart, ObjectStart, NvpairValueStart, ObjectStart, NvpairValueEnd, ObjectEnd, NvpairValueEnd, ObjectEnd]), stop) ==
            Run(s, 22, Scan(false, false, false, false, ObjectEnd, ['[' as byte, '[' as byte, '2' as byte, '3' as byte, '.' as byte, '.' as byte, '5' as byte], String([]), [ObjectStart, ObjectStart, NvpairValueStart, ObjectStart, NvpairValueEnd, ObjectEnd, NvpairValueEnd, ObjectEnd, NvpairValueEnd, ObjectEnd]), stop)
  {
    var s20 := Scan(false, false, false, false, ObjectEnd, ['[' as byte, '[' as byte, '2' as byte, '3' as byte, '.' as byte, '.' as byte, '5' as byte], String([]), [ObjectStart, ObjectStart, NvpairValueStart, ObjectStart, NvpairValueEnd, ObjectEnd, NvpairValueEnd, ObjectEnd]);
    var s21 := Scan(false, false, false, false, ObjectEnd, ['[' as byte, '[' as byte, '2' as byte, '3' as byte, '.' as byte, '.' as byte, '5' as byte], String([]), [ObjectStart, ObjectStart, NvpairValueStart, ObjectStart, NvpairValueEnd, ObjectEnd, NvpairValueEnd, ObjectEnd, NvpairValueEnd, ObjectEnd]);
    StepDelimiter(s, 20, s20, stop);
    OneDelimiter(s20, s[20]);
    assert s20.calls + [NvpairValueEnd, ObjectEnd] == s21.calls;
    RunNext(s, 20, s20, stop, 21, s21);
    var s22 := Scan(false, false, false, false, ObjectEnd, ['[' as byte, '[' as byte, '2' as byte, '3' as byte, '.' as byte, '.' as byte, '5' as byte], String([]), [ObjectStart, ObjectStart, NvpairValueStart, ObjectStart, NvpairValueEnd, ObjectEnd, NvpairValueEnd, ObjectEnd, NvpairValueEnd, ObjectEnd]);
    StepDelimiter(s, 21, s21, stop);
    OneDelimiter(s21, s[21]);
    RunNext(s, 21, s21, stop, 22, s22);
  }

  lemma SampleReadyPart10(s: seq<byte>, stop: nat -> bool)
    requires |s| == 28 && s[22] == 'n' as byte && s[23] == 'u' as byte
    ensures Run(s, 22, Scan(false, false, false, false, ObjectEnd, ['[' as byte, '[' as byte, '2' as byte, '3' as byte, '.' as byte, '.' as byte, '5' as byte], String([]), [ObjectStart, ObjectStart, NvpairValueStart, ObjectStart, NvpairValueEnd, ObjectEnd, NvpairValueEnd, ObjectEnd, NvpairValueEnd, ObjectEnd]), stop) ==
            Run(s, 24, Scan(false, false, false, false, ObjectEnd, ['[' as byte, '[' as byte, '2' as byte, '3' as byte, '.' as byte, '.' as byte, '5' as byte, 'n' as byte, 'n' as byte, 'u' as byte, 'u' as byte], String([]), [ObjectStart, ObjectStart, NvpairValueStart, ObjectStart, NvpairValueEnd, ObjectEnd, NvpairValueEnd, ObjectEnd, NvpairValueEnd, ObjectEnd]), stop)
  {
    var s22 := Scan(false, false, false, false, ObjectEnd, ['[' as byte, '[' as byte, '2' as byte, '3' as byte, '.' as byte, '.' as byte, '5' as byte], String([]), [ObjectStart, ObjectStart, NvpairValueStart, ObjectStart, NvpairValueEnd, ObjectEnd, NvpairValueEnd, ObjectEnd, NvpairValueEnd, ObjectEnd]);
    var s23 := Scan(false, false, false, false, ObjectEnd, ['[' as byte, '[' as byte, '2' as byte, '3' as byte, '.' as byte, '.' as byte, '5' as byte, 'n' as byte, 'n' as byte], String([]), [ObjectStart, ObjectStart, NvpairValueStart, ObjectStart, NvpairValueEnd, ObjectEnd, NvpairValueEnd, ObjectEnd, NvpairValueEnd, ObjectEnd]);
    PlainByte(s, 22, s22, stop);
    assert s22.cur + [s[22], s[22]] == s23.cur;
    var s24 := Scan(false, false, false, false, ObjectEnd, ['[' as byte, '[' as byte, '2' as byte, '3' as byte, '.' as byte, '.' as byte, '5' as byte, 'n' as byte, 'n' as byte, 'u' as byte, 'u' as byte], String([]), [ObjectStart, ObjectStart, NvpairValueStart, ObjectStart, NvpairValueEnd, ObjectEnd, NvpairValueEnd, ObjectEnd, NvpairValueEnd, ObjectEnd]);
    PlainByte(s, 23, s23, stop);
    assert s23.cur + [s[23], s[23]] == s24.cur;
  }

  lemma SampleReadyPart11(s: seq<byte>, stop: nat -> bool)
    requires |s| == 28 && s[24] == 'l' as byte && s[25] == 'l' as byte
    ensures Run(s, 24, Scan(false, false, false, false, ObjectEnd, ['[' as byte, '[' as byte, '2' as byte, '3' as byte, '.' as byte, '.' as byte, '5' as byte, 'n' as byte, 'n' as byte, 'u' as byte, 'u' as byte], String([]), [ObjectStart, ObjectStart, NvpairValueStart, ObjectStart, NvpairValueEnd, ObjectEnd, NvpairValueEnd, ObjectEnd, NvpairValueEnd, ObjectEnd]), stop) ==
            Run(s, 26, Scan(false, false, false, false, ObjectEnd, ['[' as byte, '[' as byte, '2' as byte, '3' as byte, '.' as byte, '.' as byte, '5' as byte, 'n' as byte, 'n' as byte, 'u' as byte, 'u' as byte, 'l' as byte, 'l' as byte, 'l' as byte, 'l' as byte], String([]), [ObjectStart, ObjectStart, NvpairValueStart, ObjectStart, NvpairValueEnd, ObjectEnd, NvpairValueEnd, ObjectEnd, NvpairValueEnd, ObjectEnd]), stop)
  {
    var s24 := Scan(false, false, false, false, ObjectEnd, ['[' as byte, '[' as byte, '2' as byte, '3' as byte, '.' as byte, '.' as byte, '5' as byte, 'n' as byte, 'n' as byte, 'u' as byte, 'u' as byte], String([]), [ObjectStart, ObjectStart, NvpairValueStart, ObjectStart, NvpairValueEnd, ObjectEnd, NvpairValueEnd, ObjectEnd, NvpairValueEnd, ObjectEnd]);
    var s25 := Scan(false, false, false, false, ObjectEnd, ['[' as byte, '[' as byte, '2' as byte, '3' as byte, '.' as byte, '.' as byte, '5' as byte, 'n' as byte, 'n' as byte, 'u' as byte, 'u' as byte, 'l' as byte, 'l' as byte], String([]), [ObjectStart, ObjectStart, NvpairValueStart, ObjectStart, NvpairValueEnd, ObjectEnd, NvpairValueEnd, ObjectEnd, NvpairValueEnd, ObjectEnd]);
    PlainByte(s, 24, s24, stop);
    assert s24.cur + [s[24], s[24]] == s25.cur;
    var s26 := Scan(false, false, false, false, ObjectEnd, ['[' as byte, '[' as byte, '2' as byte, '3' as byte, '.' as byte, '.' as byte, '5' as byte, 'n' as byte, 'n' as byte, 'u' as byte, 'u' as byte, 'l' as byte, 'l' as byte, 'l' as byte, 'l' as byte], String([]), [ObjectStart, ObjectStart, NvpairValueStart, ObjectStart, NvpairValueEnd, ObjectEnd, NvpairValueEnd, ObjectEnd, NvpairValueEnd, ObjectEnd]);
    PlainByte(s, 25, s25, stop);
    assert s25.cur + [s[25], s[25]] == s26.cur;
  }

  lemma SampleReadyPart12(s: seq<byte>, stop: nat -> bool)
    requires |s| == 28 && s[26] == ']' as byte && s[27] == '}' as byte
    ensures Run(s, 26, Scan(false, false, false, false, ObjectEnd, ['[' as byte, '[' as byte, '2' as byte, '3' as byte, '.' as byte, '.' as byte, '5' as byte, 'n' as byte, 'n' as byte, 'u' as byte, 'u' as byte, 'l' as byte, 'l' as byte, 'l' as byte, 'l' as byte], String([]), [ObjectStart, ObjectStart, NvpairValueStart, ObjectStart, NvpairValueEnd, ObjectEnd, NvpairValueEnd, ObjectEnd, NvpairValueEnd, ObjectEnd]), stop) ==
            Run(s, 28, Scan(false, false, false, false, ObjectEnd, ['[' as byte, '[' as byte, '2' as byte, '3' as byte, '.' as byte, '.' as byte, '5' as byte, 'n' as byte, 'n' as byte, 'u' as byte, 'u' as byte, 'l' as byte, 'l' as byte, 'l' as byte, 'l' as byte, ']' as byte, ']' as byte], String([]), [ObjectStart, ObjectStart, NvpairValueStart, ObjectStart, NvpairValueEnd, ObjectEnd, NvpairValueEnd, ObjectEnd, NvpairValueEnd, ObjectEnd, NvpairValueEnd, ObjectEnd]), stop)
  {
    var s26 := Scan(false, false, false, false, ObjectEnd, ['[' as byte, '[' as byte, '2' as byte, '3' as byte, '.' as byte, '.' as byte, '5' as byte, 'n' as byte, 'n' as byte, 'u' as byte, 'u' as byte, 'l' as byte, 'l' as byte, 'l' as byte, 'l' as byte], String([]), [ObjectStart, ObjectStart, NvpairValueStart, ObjectStart, NvpairValueEnd, ObjectEnd, NvpairValueEnd, ObjectEnd, NvpairValueEnd, ObjectEnd]);
    var s27 := Scan(false, false, false, false, ObjectEnd, ['[' as byte, '[' as byte, '2' as byte, '3' as byte, '.' as byte, '.' as byte, '5' as byte, 'n' as byte, 'n' as byte, 'u' as byte, 'u' as byte, 'l' as byte, 'l' as byte, 'l' as byte, 'l' as byte, ']' as byte, ']' as byte], String([]), [ObjectStart, ObjectStart, NvpairValueStart, ObjectStart, NvpairValueEnd, ObjectEnd, NvpairValueEnd, ObjectEnd, NvpairValueEnd, ObjectEnd]);
    PlainByte(s, 26, s26, stop);
    assert s26.cur + [s[26], s[26]] == s27.cur;
    var s28 := Scan(false, false, false, false, ObjectEnd, ['[' as byte, '[' as byte, '2' as byte, '3' as byte, '.' as byte, '.' as byte, '5' as byte, 'n' as byte, 'n' as byte, 'u' as byte, 'u' as byte, 'l' as byte, 'l' as byte, 'l' as byte, 'l' as byte, ']' as byte, ']' as byte], String([]), [ObjectStart, ObjectStart, NvpairValueStart, ObjectStart, NvpairValueEnd, ObjectEnd, NvpairValueEnd, ObjectEnd, NvpairValueEnd, ObjectEnd, NvpairValueEnd, ObjectEnd]);
    StepDelimiter(s, 27, s27, stop);
    OneDelimiter(s27, s[27]);
    assert s27.calls + [NvpairValueEnd, ObjectEnd] == s28.calls;
    RunNext(s, 27, s27, stop, 28, s28);
  }

  /** With `d_readyForValue` true and the callback answering 0 to its
      second invocation (the one made inside the first literal), the first
      name decodes as an empty String, its `:` is seen as a value start,
      and the rest goes as with `d_readyForValue` false. */
  lemma SampleReady(e: Event, stop: nat -> bool)
    requires !stop(1)
    ensures Run(SAMPLE, 0, Start(true, e, [], Undefined, []), stop) ==
            Outcome(Ok, Scan(false, false, false, false, ObjectEnd, ['[' as byte, '[' as byte, '2' as byte, '3' as byte, '.' as byte, '.' as byte, '5' as byte, 'n' as byte, 'n' as byte, 'u' as byte, 'u' as byte, 'l' as byte, 'l' as byte, 'l' as byte, 'l' as byte, ']' as byte, ']' as byte], String([]), [ObjectStart, ObjectStart, NvpairValueStart, ObjectStart, NvpairValueEnd, ObjectEnd, NvpairValueEnd, ObjectEnd, NvpairValueEnd, ObjectEnd, NvpairValueEnd, ObjectEnd]), 28)
  {
    SampleBytes();
    SampleReadyPart0(SAMPLE, e, stop);
    SampleReadyPart1(SAMPLE, stop);
    SampleReadyPart2(SAMPLE, stop);
    SampleReadyPart3(SAMPLE, stop);
    SampleReadyPart4(SAMPLE, stop);
    SampleReadyPart5(SAMPLE, stop);
    SampleReadyPart6(SAMPLE, stop);
    SampleReadyPart7(SAMPLE, stop);
    SampleReadyPart8(SAMPLE, stop);
    SampleReadyPart9(SAMPLE, stop);
    SampleReadyPart10(SAMPLE, stop);
    SampleReadyPart11(SAMPLE, stop);
    SampleReadyPart12(SAMPLE, stop);
  }

  /** With `d_readyForValue` true and the callback answering non-zero to its
      second invocation, `parse` returns `ERR_OK` at the `a` of the first
      name, inside the literal, after two invocations that both saw an
      object start. */
  lemma SampleReadyStopped(e: Event, stop: nat -> bool)
    requires stop(1)
    ensures Run(SAMPLE, 0, Start(true, e, [], Undefined, []), stop) ==
            Outcome(Ok, Scan(true, false, false, true, ObjectStart, [], Undefined, [ObjectStart, ObjectStart]), 2)
  {
    SampleBytes();
    var s2 := Scan(true, false, false, true, ObjectStart, [], Undefined, [ObjectStart]);
    SampleReadyPart0(SAMPLE, e, stop);
    assert s2.calls + [ObjectStart] == [ObjectStart, ObjectStart];
    assert Step(SAMPLE, 2, s2, stop) == Halt(Ok, s2.(calls := [ObjectStart, ObjectStart]));
  }

  /** A number run into a letter fails at the letter from the start of a
      parse, directly after the digits or after a space or a brace. */
  lemma NumberThenLetter(ready: bool, e: Event, stop: nat -> bool)
    ensures var r := Run(FromString("12a"), 0, Start(ready, e, [], Undefined, []), stop);
            r.status == BadUnquoted && r.at == 2
    ensures var r := Run(FromString("1 a"), 0, Start(ready, e, [], Undefined, []), stop);
            r.status == BadUnquoted && r.at == 2
    ensures var r := Run(FromString("1}a"), 0, Start(ready, e, [], Undefined, []), stop);
            r.status == BadUnquoted && r.at == 2
  {
    var st := Start(ready, e, [], Undefined, []);
    RunDigitsThenLetter(FromString("12a"), 0, 2, st, stop);
    RunDigitsThenLetter(FromString("1 a"), 0, 2, st, stop);
    RunDigitsThenLetter(FromString("1}a"), 0, 2, st, stop);
  }
}
