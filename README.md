# ay_json / ebson11 core in Dafny

This project models two pieces of the repository.

- **The SAX JSON tokenizer of `ay_json.h`** (`ay::JSON_SAX_parser`). This covers:
  - the hex-digit test and the `\uXXXX` payload decoder (`push_unicode`);
  - the escape table and the token classifier `setValue` (with C `atoi` on its numeral);
  - the typed value `JSON_value`;
  - the byte-by-byte scan loop `parse`, which drives a caller's callback with structural events.
- **`ebson11::StrRepDecimal`** (`bson/stringnum.h`): a decimal counter kept as text in a 21-byte buffer and incremented in place by a ripple carry.

The project has one module per concern:

- `Bytes` (`bytes.dfy`): bytes, C-string views, and decimal numerals and their values.
- `JsonValue` (`json_value.dfy`): `JSON_value` as a tagged datatype.
- `JsonDecode` (`json_decode.dfy`): the pure per-byte and per-token decisions of the parser.
- `JsonSax` (`json_sax.dfy`): one iteration of the scan loop as the function `Step`, its iteration `Run`, and the class `JsonSaxParser`.
  - The class holds the parser's fields and its method `Parse`.
  - `Parse` is the loop itself, proved to compute exactly what `Run` says.
- `JsonSaxProps` (`json_sax_props.dfy`): what the scan guarantees, as lemmas about `Run`.
- `JsonSaxExample` (`json_sax_example.dfy`): the complete scan of the repository's sample document `{"a": [{"b": 2}, 3.5, null]}` (test.cc:46).
- `StringNum` (`stringnum.dfy`): the specification of the increment and the class `StrRepDecimal`.
  - The class keeps the buffer as an `array<byte>` and `d_first` as an index.
  - Its methods are proved against that specification.

**The callback** is modelled as a trace plus an oracle.

- Each invocation appends the `d_event` it sees to the field `calls`.
- `stop(k)` is the answer of the k-th invocation, counting from 0.
- The source consults the answer only in the quoted branch (ay_json.h:184). There a non-zero answer makes `parse` return `ERR_OK` at once.

**`ay_json.h` does not compile as it stands.** The model resolves each problem as follows:

- `push_unicode` has two parameters named `s`. The vector is `d_curStr` and the `const char*` is the four-byte window.
- `setValue` reads `*s` where its token parameter is `t`. It is modelled as reading the token `t` (all of `d_curStr`).
- Reads past the end of the token see a NUL, as in a C string.
- `case 'r'` appears twice in the escape switch; it is kept once.
- `ERR_UNQUOTED` is taken as `ERR_BAD_UNQUOTED`.
- `parse` falls off its end without a `return`; the model returns `ERR_OK` there.
- `d_readyForValue` and `d_event` are never initialised. Their indeterminate initial values are parameters of the constructor.
- The `#ifdef AY_JSON_H` guard (ay_json.h:1) would hide the whole header; it is read as an include guard.
- `setValue` is declared `void` but does `return ERR_OK`; the model drops that status, which `parse` never looks at.
- `isArray` is undeclared (ay_json.h:151); it is dropped together with `isObject`, which nothing reads.
- `setValue` calls `setDouble` (ay_json.h:106), but the method declared at line 38 is `setDoube`. It is read as that setter, and gives a Real.
- `setValue`'s `s_len` is declared `const char*` (line 98), yet it is compared with 32 (line 102) and given `d_curStr.size()` (line 179). It is read as a byte count: the token's length.
- `&(d_curStr)` is passed where a `const char*` is expected (line 179). It is read as the token's bytes.
- The placement `new` in `setString` (line 44) is ill-formed. It is read as storing a `JSON_string` over the token's bytes, which the model keeps as the bytes themselves.

The model follows the code where the code departs from the design of the repository:

- a `,` emits only a value end and an object end;
- `[` and `]` are ordinary token bytes and emit nothing;
- the code has no ArrayStart or ArrayEnd event, and it declares `EVENT_VALUE_ATOMIC` and `EVENT_NVPAIR_NAME` but never emits them;
- the token buffer is never cleared;
- a stop answer makes `parse` return `ERR_OK`;
- an unquoted token never reaches `setValue`, because `parse` calls it only on a closing quote, with `quoteInFront` true;
- `isEscaped` is never set, so the escape branch is unreachable from `parse` (`JsonSaxProps.RunNeverEscapes`);
- bytes inside a literal are never appended to `d_curStr` (ay_json.h:176-181), so a closing quote decodes the unquoted bytes gathered before the literal (the first name of the sample decodes as `String([])`);
- an opening `"` does not reset `isNumber` (ay_json.h:207-209), and the model keeps it as it was.

The escape branch and `push_unicode` are modelled in their corrected readings, the corrected halves of the Findings rows for ay_json.h:92-93 and ay_json.h:167-171. The members `JsonSax.JsonSaxParser.PushUnicode`, `JsonSax.StepEscaped` and `JsonSax.JsonSaxParser.ScanEscaped` pack the bytes from nibbles (`JsonDecode.UnicodeBytes`). They read the four digits after the `u`, move five bytes on, and append no TAB. As written, `\u0041` would push 00 50, and every `\u` escape would fail. The difference cannot be observed from `Parse`, because the escape branch is never entered (`JsonSaxProps.RunNeverEscapes`). Likewise the closing quote calls the corrected `JsonDecode.SetValue`, the corrected half of the Findings row for ay_json.h:120, rather than `JsonDecode.SetValueAsWritten`. The two agree whenever `quoteInFront` is true, which is the only way `parse` calls `setValue`: the `f` branch that differs is reached only for an unquoted token.

## Model

| member | source | states |
|---|---|---|
| JsonDecode.HexDigitsAreNibbles | ay_json.h:88 | `is_hex_digit` accepts exactly the upper- and lower-case digits of the 16 nibbles, in both directions, and `HexValue` names the nibble |
| JsonDecode.HexDigitRoundTrip | ay_json.h:88 | every nibble's digit, either case, passes `is_hex_digit` and decodes back to the nibble |
| JsonDecode.UnicodeBytesRoundTrip | ay_json.h:89-97 | decoding the four hex digits written for two bytes appends exactly those two bytes, high byte first |
| JsonDecode.UnicodeBytesAsWrittenMisdecodes | ay_json.h:92-93 | as written, each byte pushed has a zero low nibble; `0041` yields 00 50 where the intended decoder yields 00 41 |
| JsonSax.JsonSaxParser.PushUnicode | ay_json.h:89-97 | corrected reading of lines 92-93: succeeds iff all four bytes are hex digits; on success the token grows by the two bytes packed from their nibbles, otherwise it is unchanged |
| JsonDecode.EscapeTableInvertsShortEscape | ay_json.h:157-166 | the escape letters and the bytes they stand for are a bijection with a writer's short escapes, in both directions |
| JsonDecode.UnescapeRoundTrip | ay_json.h:155-175 | a short escape gives back its byte; `u` plus the hex text of two bytes gives back those bytes and consumes the four digits |
| JsonDecode.UnescapeFailsOnlyOnUnicode | ay_json.h:155-175 | the escape branch fails (`ERR_UNICODE`) iff the letter is `u` and four hex digits do not follow; any other letter appends at most one byte and consumes nothing more |
| JsonDecode.UnescapeAsWrittenRejectsUnicode | ay_json.h:167-171 | as written, every `\u` escape fails, because the window starts at the `u`; the intended reading decodes `\u0041` to 00 41 |
| JsonDecode.AtoIRoundTrip | ay_json.h:108 | C `atoi` reads back the decimal text of any integer, whatever non-digit follows it |
| JsonDecode.SetValueNumberKind | ay_json.h:100-108 | a numeric token becomes Real iff a `.` occurs in its first min(len, 31) bytes before any NUL, and Int otherwise |
| JsonDecode.SetValueNumberReads31 | ay_json.h:101-104 | only the first 31 bytes of a numeric token are looked at |
| JsonDecode.SetValueIntRoundTrip | ay_json.h:100-108 | a numeric token holding an integer's decimal text (up to 31 bytes) decodes to that integer, for values that fit an `int` (see JsonDecode.AtoI under Left out) |
| JsonDecode.SetValueKeywords | ay_json.h:111-140 | an unquoted non-numeric token whose C string is `true`, `false`, `null` or `undefined` gives that value; another token starting with t, f, n or u leaves the value alone; anything else is a String |
| JsonDecode.SetValueAsWrittenMissesFalse | ay_json.h:119-124 | as written, `false` leaves the value unchanged and `falss` is read as Bool(false); the intended version reads `false` as Bool(false) |
| JsonDecode.SetValueQuotedIsString | ay_json.h:141-143 | a quoted, non-numeric token is always a String of its bytes, even one that spells a keyword |
| JsonSax.Step | ay_json.h:153-222 | one iteration advances by one byte, or by five for a decoded `\u` escape (the corrected escape branch); it only appends to the callback trace and the token, and makes at most two invocations |
| JsonSax.Run | ay_json.h:147-224 | the scan stops at a position inside the buffer, never before where it started; the callback trace and the token only grow |
| JsonSax.JsonSaxParser.constructor | ay_json.h:86 | empty token, Undefined value, no invocations; `d_readyForValue` and `d_event` take the given indeterminate values |
| JsonSax.JsonSaxParser.ScanEscaped | ay_json.h:155-175 | the escaped branch of the loop body, in its corrected reading, does what `Step` says for that state |
| JsonSax.JsonSaxParser.ScanQuoted | ay_json.h:176-191 | the quoted branch of the loop body does what `Step` says for that state |
| JsonSax.JsonSaxParser.ScanUnquoted | ay_json.h:192-221 | the unquoted branch of the loop body does what `Step` says for that state |
| JsonSax.JsonSaxParser.Parse | ay_json.h:147-224 | the returned status and every field afterwards (`d_readyForValue`, `d_event`, `d_curStr`, `d_val`, the trace) are those of `Run` from the start of the buffer |
| JsonSaxProps.StepDelimiter | ay_json.h:193-206 | outside a literal, `{ } : ,` and space emit exactly their fixed event lists (`}` and `,` two events, in order) and change nothing else |
| JsonSaxProps.RunDelimiters | ay_json.h:193-206 | a run of delimiters emits the concatenation of their event lists, leaves `d_event` at the last of them and changes nothing else |
| JsonSaxProps.OnlyDelimiters | ay_json.h:193-206 | a buffer of delimiters only is scanned to its end with `ERR_OK` and emits the concatenated event lists |
| JsonSaxProps.StepPlain | ay_json.h:210-220 | outside the numeric hypothesis, a plain byte is appended to the token once if it is a digit and twice otherwise |
| JsonSaxProps.RunPlain | ay_json.h:210-220 | a run of plain bytes outside the numeric hypothesis only grows the token: digits once, other bytes twice |
| JsonSaxProps.RunDigitThenLetter | ay_json.h:211-216 | a digit on an empty token starts the numeric hypothesis, and a plain non-digit right after it ends the scan with `ERR_BAD_UNQUOTED` at that byte |
| JsonSaxProps.RunNumberFails | ay_json.h:193-216 | under the numeric hypothesis, outside a literal, any run of digits and delimiters followed by a plain non-digit ends the scan with `ERR_BAD_UNQUOTED` exactly at that byte |
| JsonSaxProps.RunDigitsThenLetter | ay_json.h:211-216 | a digit on an empty token, then any digits and delimiters, then a plain non-digit: `ERR_BAD_UNQUOTED` at that byte |
| JsonSaxExample.NumberThenLetter | ay_json.h:211-216 | from the start of a parse, `12a`, `1 a` and `1}a` each fail with `ERR_BAD_UNQUOTED` at the `a` |
| JsonSaxProps.RunQuoteNotReady | ay_json.h:176-191 | with `d_readyForValue` false, an opening quote makes only the next byte quoted; that byte (not itself a quote) is dropped and the flags are cleared |
| JsonSaxProps.RunNeverEscapes | ay_json.h:150-191 | from an unescaped state the escape branch is never entered, so the status is `ERR_OK` or `ERR_BAD_UNQUOTED`, never `ERR_UNICODE` |
| JsonSaxProps.RunIgnoresOracle | ay_json.h:183-190 | once `d_readyForValue` is false, the callback's answers do not change the outcome (for a callback that writes no field of the parser) |
| JsonSaxProps.RunUpToNul | ay_json.h:153 | the scan never reads at or past the first NUL: the buffer and its C string give the same outcome |
| JsonSaxProps.RunEnds | ay_json.h:153-221 | a scan ends either at the first NUL or the end of the buffer with `ERR_OK`, or earlier with `ERR_BAD_UNQUOTED` at a plain non-digit under the numeric hypothesis, or earlier with `ERR_OK` right after an invocation answered non-zero |
| JsonSaxProps.StepEnds | ay_json.h:176-221 | one unescaped iteration stays unescaped when it moves on, and it halts only in the two ways `RunEnds` names |
| JsonSaxProps.RunDecodesNoKeyword | ay_json.h:179 | `parse` passes every token to `setValue` as quoted, so `d_val` ends as it began or as a String, an Int or a Real, never a keyword value |
| JsonSaxExample.SampleNotReady | test.cc:45-50 | with `d_readyForValue` false, the sample document is scanned to its end with `ERR_OK`; the exact invocation trace and final token are stated, for any callback answers |
| JsonSaxExample.SampleReady | test.cc:45-50 | with `d_readyForValue` true and a callback answering 0, as the repository's callback does, the sample document is scanned to its end; the exact trace is stated, and the first name decodes as an empty String |
| JsonSaxExample.SampleReadyStopped | ay_json.h:183-185 | with `d_readyForValue` true and a non-zero answer to the second invocation, the sample stops with `ERR_OK` at byte 2 after two invocations |
| StringNum.AddOneValue | bson/stringnum.h:45-54 | the ripple carry adds one: the new digits plus 10^n, when the carry comes out, are worth one more than the old ones |
| StringNum.AddOneCarry | bson/stringnum.h:45-54 | a carry comes out of the loop iff every digit was a nine |
| StringNum.AddOneNines | bson/stringnum.h:47-48 | a run of trailing nines becomes zeros and passes the carry to the digits before it |
| StringNum.BumpDigit | bson/stringnum.h:45-53 | the last digit below nine goes up by one, the nines after it become zeros, the digits before it are untouched, and there is no carry |
| StringNum.IncrementedValue | bson/stringnum.h:43-58 | `increment` adds one without changing the length unless every digit is nine; all nines with room become `1` then zeros; all nines without room wrap to zeros |
| StringNum.IncrementDecimal | bson/stringnum.h:43-58 | with room to grow, incrementing the decimal text of n gives the decimal text of n + 1 |
| StringNum.IncrementDecimalBounded | bson/stringnum.h:3-4 | below 10^20 - 1, the 20-digit buffer always has the room it needs, and incrementing the text of n gives the text of n + 1 |
| StringNum.CarryStops | bson/stringnum.h:49-52 | when the loop stops at byte p, the buffer holds the carried numeral and nothing before `d_first` has moved |
| StringNum.CarryRunsOut | bson/stringnum.h:45-55 | when the loop runs off the numeral, the numeral is all zeros, a carry comes out, and nothing before `d_first` has moved |
| StringNum.StrRepDecimal.CStr | bson/stringnum.h:66 | the numeral `c_str()` shows has 1 to 20 decimal digits |
| StringNum.StrRepDecimal.CStrIsCString | bson/stringnum.h:66 | the C string at `d_first` is exactly the numeral: the NUL at byte 20 ends it and none comes before |
| StringNum.StrRepDecimal.constructor | bson/stringnum.h:19-24 | a fresh buffer holding `"0"` at byte 19, with `d_first` there |
| StringNum.StrRepDecimal.Copy | bson/stringnum.h:31-35 | a fresh buffer with the same 21 bytes and the same offset of `d_first` |
| StringNum.StrRepDecimal.Carry | bson/stringnum.h:45-54 | the loop leaves the numeral as the carried digits; it returns early exactly when no carry comes out; nothing before `d_first` or at byte 20 is written |
| StringNum.StrRepDecimal.Increment | bson/stringnum.h:43-58 | the buffer stays well formed, the numeral becomes `Incremented(old numeral, d_first > d_buf)`, and no byte before the new `d_first` changes |
| StringNum.StrRepDecimal.PreIncrement | bson/stringnum.h:60-64 | `operator++` increments and returns the new `c_str()` |

## Left out

- The `StrRepDecimal(uint32_t)` constructor and `operator=(uint32_t)` (bson/stringnum.h:26-29, 37-41) are not modelled. They call `snprintf`, which writes the number left-aligned from `d_buf[0]`, at most 10 digits and a NUL, and they never set `d_first`. After the constructor `d_first` is uninitialised, so no well-formed state results to model. `operator=` leaves `d_first` and bytes 11-20 as they were: when the old `d_first` is past byte 10 (a default-constructed object has it at byte 19), the numeral and `c_str()` are unchanged, and the assignment has no visible effect; only an old `d_first` at byte 10 or earlier lets the `snprintf` output cut into the numeral.
- StringNum.StrRepDecimal.constructor: the bytes before `d_first` are indeterminate in the source; the model sets them to zero. Nothing observes them: the copy constructor's `memcpy` (bson/stringnum.h:33) copies them, but `c_str()` starts at `d_first`, and the increment writes `'1'` into the byte before `d_first` as it moves `d_first` onto it (bson/stringnum.h:56-57).
- The callback's own behaviour is not modelled: its console output and `getString`, which `JSON_value` does not declare. Only its sequence of answers (`stop`) is modelled.
- The callback is assumed to write no field of the parser. It gets the parser by non-const reference (ay_json.h:184, 195-203; test.cc:6), and `d_readyForValue`, `d_event`, `d_curStr` and `d_val` are public (ay_json.h:50-84). So in the source a callback could re-arm `d_readyForValue`, clear the token or overwrite the value; the model does not capture that. JsonSaxProps.RunIgnoresOracle, JsonSax.JsonSaxParser.Parse and the sample traces hold only for such a callback, as the repository's own callback (test.cc:6-42) is.
- JsonDecode.AtoI: does not model `int` overflow, because the C behaviour on out-of-range input is undefined; it is exact for values that fit.
- JsonDecode.SetValue / JsonValue.Value.String: `setString` (ay_json.h:44) writes only the payload and leaves `d_type` unchanged, unlike every other setter (ay_json.h:37-42). So in the source a decoded string keeps the previous tag, `VT_UNDEFINED` on a fresh parser, and test.cc:33 would not see `VT_STRING`. The model tags the value `String` as evidently intended. This affects JsonDecode.SetValueQuotedIsString, JsonDecode.SetValueKeywords, JsonSaxProps.RunDecodesNoKeyword and JsonSaxExample.SampleReady.
- `atof` is not modelled: a Real keeps the numeral's text (floating point).
- `JSON_value`'s untagged union, placement `new` and the `d_type` byte are not modelled: the datatype variant is the tag, which every setter but `setString` also sets in the source. `VT_OBJECT` and `VT_ARRAY` are never set, so they have no variant.
- `JSON_string` (ay_json.h:8-15) is not modelled: a String holds the token bytes themselves.
- The `d_cb_*` members, `d_err`, `d_pos`, `isObject` and `isArray` are not modelled: nothing reads them.
- `JSON_SAX_parser`'s other members and the bson encoder are not part of this model. Neither are bson/bsontest.cpp, bson/bsoncompare_mongodb.cpp, or the `main` of test.cc beyond its sample document.
- test.cc's callback names `EVENT_ARRAY_START` and `EVENT_ARRAY_END`, which `ay_json.h` does not declare. The model uses the declared `Event` enumeration only.
- Integer width: positions are unbounded `nat`; the source's `size_t` offsets cannot overflow for a buffer in memory.

## Findings

| source | as written | input that shows it | evidently intended | confidence | as-written member | corrected member |
|---|---|---|---|---|---|---|
| ay_json.h:92-93 | `(char)(s[1]) + ((char)(s[0]))<< 4` adds the two character codes and then shifts, because `+` binds tighter than `<<`; nibble values are never taken | `\u0041`: bytes 00 50 (the low nibble is always 0) | `HexValue(s[0]) * 16 + HexValue(s[1])` per byte, giving 00 41 | high, not executed | JsonDecode.UnicodeBytesAsWrittenMisdecodes | JsonDecode.UnicodeBytesRoundTrip |
| ay_json.h:167-171 | the window handed to `push_unicode` starts at the `u` itself, the bound is `t+3`, `t` moves by 3, and the `'\t'` left in `c` is appended after the decoded bytes | `\u0041`: `u` is not a hex digit, so `ERR_UNICODE` for every `\u` escape | window `t+1..t+4`, skip four bytes, append no TAB | high, not executed | JsonDecode.UnescapeAsWrittenRejectsUnicode | JsonDecode.UnescapeRoundTrip |
| ay_json.h:120 | the `f` branch tests `t[3] == 's' && t[4] == 's'` | token `false`: the value is left unchanged, while `falss` becomes Bool(false) | `t[4] == 'e'` | high, not executed | JsonDecode.SetValueAsWrittenMissesFalse | JsonDecode.SetValueKeywords |
