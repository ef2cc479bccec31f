/** What the scan loop of `JSON_SAX_parser::parse` (ay_json.h:147-224)
    guarantees, stated about `JsonSax.Run`, which `JsonSaxParser.Parse` is
    proved to compute. */
module JsonSaxProps {
  import opened Bytes
  import opened JsonValue
  import opened JsonDecode
  import opened JsonSax

  /** One iteration that moves on: the rest of the scan starts where it left. */
  lemma RunNext(s: seq<byte>, i: nat, st: Scan, stop: nat -> bool, j: nat, st': Scan)
    requires i < |s| && s[i] != NUL && Step(s, i, st, stop) == Next(j, st')
    ensures j <= |s| && Run(s, i, st, stop) == Run(s, j, st', stop)
  {
  }

  // ---------------------------------------------------------------------
  // Delimiters outside a literal (lines 193-206)
  // ---------------------------------------------------------------------

  /** The bytes the unquoted switch handles itself: `{ } : ,` and space.
      `[` and `]` are not among them. */
  predicate IsDelimiter(c: byte) {
    c == '{' as byte || c == '}' as byte || c == ':' as byte || c == ',' as byte || c == SPACE
  }

  /** The fixed list of events each delimiter emits, in order. */
  function DelimiterEvents(c: byte): seq<Event> {
    if c == '{' as byte then [ObjectStart]
    else if c == '}' as byte then [NvpairValueEnd, ObjectEnd]
    else if c == ':' as byte then [NvpairValueStart]
    else if c == ',' as byte then [NvpairValueEnd, ObjectEnd]
    else []
  }

  /** The events of a run of delimiters, one list after the other. */
  function EventsOf(b: seq<byte>): seq<Event> {
    if b == [] then [] else DelimiterEvents(b[0]) + EventsOf(b[1..])
  }

  /** `d_event` after the events `evs`: the last of them, if any. */
  function LastEvent(e: Event, evs: seq<Event>): Event {
    if evs == [] then e else evs[|evs| - 1]
  }

  /** The state after a run of delimiters: their events appended, `d_event`
      the last of them, and nothing else touched. */
  function AfterDelimiters(st: Scan, b: seq<byte>): Scan {
    st.(event := LastEvent(st.event, EventsOf(b)), calls := st.calls + EventsOf(b))
  }

  /** Outside a literal, a delimiter emits exactly its event list and
      touches neither the token, the flags nor the value. */
  lemma StepDelimiter(s: seq<byte>, i: nat, st: Scan, stop: nat -> bool)
    requires i < |s| && !st.escaped && !st.quoted && IsDelimiter(s[i])
    ensures Step(s, i, st, stop) == Next(i + 1, AfterDelimiters(st, [s[i]]))
  {
    var c := s[i];
    assert EventsOf([c]) == DelimiterEvents(c) by { assert [c][1..] == []; }
    var evs := DelimiterEvents(c);
    assert st.calls + evs == st.calls + [NvpairValueEnd] + [ObjectEnd] || |evs| <= 1;
  }

  lemma {:induction false} LastEventAppend(e: Event, a: seq<Event>, b: seq<Event>)
    ensures LastEvent(LastEvent(e, a), b) == LastEvent(e, a + b)
  {
    if b != [] {
      assert (a + b)[|a + b| - 1] == b[|b| - 1];
    }
  }

  lemma AfterDelimitersCons(st: Scan, b: seq<byte>)
    requires b != []
    ensures AfterDelimiters(st, b) == AfterDelimiters(AfterDelimiters(st, [b[0]]), b[1..])
  {
    var e1, er := DelimiterEvents(b[0]), EventsOf(b[1..]);
    assert EventsOf([b[0]]) == e1 by { assert [b[0]][1..] == []; }
    LastEventAppend(st.event, e1, er);
    assert st.calls + e1 + er == st.calls + (e1 + er);
  }

  /** A run of delimiters outside a literal emits the concatenation of
      their event lists. */
  lemma {:induction false} RunDelimiters(s: seq<byte>, i: nat, j: nat, st: Scan, stop: nat -> bool)
    requires i <= j <= |s| && !st.escaped && !st.quoted
    requires forall k :: i <= k < j ==> IsDelimiter(s[k])
    ensures Run(s, i, st, stop) == Run(s, j, AfterDelimiters(st, s[i..j]), stop)
    decreases j - i
  {
    if i == j {
      assert s[i..j] == [];
      assert AfterDelimiters(st, s[i..j]) == st;
    } else {
      StepDelimiter(s, i, st, stop);
      var st1 := AfterDelimiters(st, [s[i]]);
      RunNext(s, i, st, stop, i + 1, st1);
      RunDelimiters(s, i + 1, j, st1, stop);
      assert s[i..j][1..] == s[i + 1..j];
      AfterDelimitersCons(st, s[i..j]);
    }
  }

  /** A buffer of delimiters only is scanned to its end, emits the
      concatenation of their event lists and returns `ERR_OK`. */
  lemma OnlyDelimiters(s: seq<byte>, st: Scan, stop: nat -> bool)
    requires !st.escaped && !st.quoted
    requires forall k :: 0 <= k < |s| ==> IsDelimiter(s[k])
    ensures Run(s, 0, st, stop) == Outcome(Ok, AfterDelimiters(st, s), |s|)
  {
    RunDelimiters(s, 0, |s|, st, stop);
    assert s[0..|s|] == s;
  }

  // ---------------------------------------------------------------------
  // Unquoted tokens (lines 207-221)
  // ---------------------------------------------------------------------

  /** A byte that the unquoted switch sends to `default`: `[` and `]`
      among them. */
  predicate IsPlain(c: byte) {
    c != NUL && !IsDelimiter(c) && c != QUOTE
  }

  /** What a run of plain bytes adds to the token outside the numeric
      hypothesis: a digit once, any other byte twice. */
  function Accumulated(b: seq<byte>): seq<byte> {
    if b == [] then [] else (if IsDigit(b[0]) then [b[0]] else [b[0], b[0]]) + Accumulated(b[1..])
  }

  /** Outside a literal and outside the numeric hypothesis, a plain byte is
      appended, once if it is a digit and twice otherwise. */
  lemma StepPlain(s: seq<byte>, i: nat, st: Scan, stop: nat -> bool)
    requires i < |s| && !st.escaped && !st.quoted && !st.number && IsPlain(s[i])
    requires st.cur != [] || !IsDigit(s[i])
    ensures Step(s, i, st, stop) == Next(i + 1, st.(cur := st.cur + if IsDigit(s[i]) then [s[i]] else [s[i], s[i]]))
  {
  }

  lemma AccumulatedCons(cur: seq<byte>, s: seq<byte>, i: nat, j: nat)
    requires i < j <= |s|
    ensures cur + Accumulated(s[i..j]) ==
            (cur + if IsDigit(s[i]) then [s[i]] else [s[i], s[i]]) + Accumulated(s[i + 1..j])
  {
    assert s[i..j][0] == s[i] && s[i..j][1..] == s[i + 1..j];
  }

  /** Outside a literal and outside the numeric hypothesis, a run of plain
      bytes only grows the token: digits once, every other byte twice. It
      takes the hypothesis up only when a digit arrives on an empty token. */
  lemma {:induction false} RunPlain(s: seq<byte>, i: nat, j: nat, st: Scan, stop: nat -> bool)
    requires i <= j <= |s| && !st.escaped && !st.quoted && !st.number
    requires forall k :: i <= k < j ==> IsPlain(s[k])
    requires st.cur != [] || i == j || !IsDigit(s[i])
    ensures Run(s, i, st, stop) == Run(s, j, st.(cur := st.cur + Accumulated(s[i..j])), stop)
    decreases j - i
  {
    if i == j {
      assert s[i..j] == [];
      assert st.(cur := st.cur + []) == st;
    } else {
      var tc := s[i];
      var add := if IsDigit(tc) then [tc] else [tc, tc];
      var st1 := st.(cur := st.cur + add);
      StepPlain(s, i, st, stop);
      RunNext(s, i, st, stop, i + 1, st1);
      RunPlain(s, i + 1, j, st1, stop);
      AccumulatedCons(st.cur, s, i, j);
    }
  }

  /** A digit on an empty token starts the numeric hypothesis, and a plain
      non-digit right after it makes `parse` fail with `ERR_BAD_UNQUOTED` at
      that byte. */
  lemma RunDigitThenLetter(s: seq<byte>, i: nat, st: Scan, stop: nat -> bool)
    requires i + 1 < |s| && !st.escaped && !st.quoted && st.cur == []
    requires IsDigit(s[i]) && IsPlain(s[i + 1]) && !IsDigit(s[i + 1])
    ensures Run(s, i, st, stop) == Outcome(BadUnquoted, st.(number := true, cur := [s[i]]), i + 1)
  {
    var st1 := st.(number := true, cur := [s[i]]);
    assert Step(s, i, st, stop) == Next(i + 1, st1);
    assert Step(s, i + 1, st1, stop) == Halt(BadUnquoted, st1);
  }

  /** Under the numeric hypothesis a digit or a delimiter moves on one byte
      and keeps the hypothesis up, outside any literal. */
  lemma StepKeepsNumber(s: seq<byte>, i: nat, st: Scan, stop: nat -> bool)
    requires i < |s| && !st.escaped && !st.quoted && st.number
    requires IsDigit(s[i]) || IsDelimiter(s[i])
    ensures Step(s, i, st, stop).Next? && Step(s, i, st, stop).pos == i + 1
    ensures var st' := Step(s, i, st, stop).st; !st'.escaped && !st'.quoted && st'.number
  {
  }

  /** Once the numeric hypothesis is up, digits and delimiters keep the scan
      going, and the first plain non-digit after them makes `parse` fail
      with `ERR_BAD_UNQUOTED` at that byte, as in `12a`, `1 a` or `1}a`. */
  lemma {:induction false} RunNumberFails(s: seq<byte>, i: nat, j: nat, st: Scan, stop: nat -> bool)
    requires i <= j < |s| && !st.escaped && !st.quoted && st.number
    requires forall k :: i <= k < j ==> IsDigit(s[k]) || IsDelimiter(s[k])
    requires IsPlain(s[j]) && !IsDigit(s[j])
    ensures Run(s, i, st, stop).status == BadUnquoted && Run(s, i, st, stop).at == j
    decreases j - i
  {
    if i == j {
      assert Step(s, i, st, stop) == Halt(BadUnquoted, st);
    } else {
      StepKeepsNumber(s, i, st, stop);
      var st' := Step(s, i, st, stop).st;
      RunNext(s, i, st, stop, i + 1, st');
      RunNumberFails(s, i + 1, j, st', stop);
    }
  }

  /** A digit on an empty token, then any digits and delimiters, then a
      plain non-digit: `parse` fails with `ERR_BAD_UNQUOTED` at that byte. */
  lemma RunDigitsThenLetter(s: seq<byte>, i: nat, j: nat, st: Scan, stop: nat -> bool)
    requires i < j < |s| && !st.escaped && !st.quoted && st.cur == []
    requires IsDigit(s[i])
    requires forall k :: i < k < j ==> IsDigit(s[k]) || IsDelimiter(s[k])
    requires IsPlain(s[j]) && !IsDigit(s[j])
    ensures Run(s, i, st, stop).status == BadUnquoted && Run(s, i, st, stop).at == j
  {
    var st1 := st.(number := true, cur := [s[i]]);
    assert Step(s, i, st, stop) == Next(i + 1, st1);
    RunNext(s, i, st, stop, i + 1, st1);
    RunNumberFails(s, i + 1, j, st1, stop);
  }

  // ---------------------------------------------------------------------
  // Literals (lines 176-191, 207-209)
  // ---------------------------------------------------------------------

  /** When `d_readyForValue` is false, an opening quote makes only the next
      byte quoted: that byte (not itself a quote) is dropped, the flags are
      cleared, and nothing else changes. */
  lemma RunQuoteNotReady(s: seq<byte>, i: nat, st: Scan, stop: nat -> bool)
    requires i + 1 < |s| && !st.escaped && !st.quoted && !st.ready
    requires s[i] == QUOTE && s[i + 1] != NUL && s[i + 1] != QUOTE
    ensures Run(s, i, st, stop) == Run(s, i + 2, st.(number := false), stop)
  {
    var st1 := st.(quoted := true);
    assert Step(s, i, st, stop) == Next(i + 1, st1);
    assert Step(s, i + 1, st1, stop) == Next(i + 2, st.(number := false));
  }

  // ---------------------------------------------------------------------
  // The whole scan
  // ---------------------------------------------------------------------

  /** Nothing sets `isEscaped`: from an unescaped state the escaped branch
      is never taken, so `ERR_UNICODE` cannot come back. */
  lemma {:induction false} RunNeverEscapes(s: seq<byte>, i: nat, st: Scan, stop: nat -> bool)
    requires i <= |s| && !st.escaped
    ensures !Run(s, i, st, stop).st.escaped
    ensures Run(s, i, st, stop).status == Ok || Run(s, i, st, stop).status == BadUnquoted
    decreases |s| - i
  {
    if i < |s| && s[i] != NUL {
      match Step(s, i, st, stop)
      case Next(j, st') =>
        assert !st'.escaped;
        RunNeverEscapes(s, j, st', stop);
      case Halt(_, _) =>
    }
  }

  /** Once `d_readyForValue` is false the callback's answers no longer
      matter: it is consulted only in the quoted branch, and only then. */
  lemma {:induction false} RunIgnoresOracle(s: seq<byte>, i: nat, st: Scan, stop1: nat -> bool, stop2: nat -> bool)
    requires i <= |s| && !st.ready
    ensures Run(s, i, st, stop1) == Run(s, i, st, stop2)
    decreases |s| - i
  {
    if i < |s| && s[i] != NUL {
      assert Step(s, i, st, stop1) == Step(s, i, st, stop2);
      match Step(s, i, st, stop1)
      case Next(j, st') =>
        assert !st'.ready;
        RunIgnoresOracle(s, j, st', stop1, stop2);
      case Halt(_, _) =>
    }
  }

  lemma UnescapeUpToNul(s: seq<byte>, i: nat)
    requires i < NulIndex(s)
    ensures Unescape(s, i) == Unescape(UpToNul(s), i)
  {
    var n := NulIndex(s);
    var c := UpToNul(s);
    if s[i] == 'u' as byte {
      if i + 4 < n {
        assert c[i + 1..i + 5] == s[i + 1..i + 5];
      } else if i + 4 < |s| {
        assert s[i + 1..i + 5][n - i - 1] == s[n] == NUL;
        assert !IsHexDigit(s[n]);
      }
    }
  }

  /** The scan reads nothing at or after the first NUL: the buffer and the
      C string at its start give the same result. */
  lemma {:induction false} RunUpToNul(s: seq<byte>, i: nat, st: Scan, stop: nat -> bool)
    requires i <= NulIndex(s)
    ensures Run(s, i, st, stop) == Run(UpToNul(s), i, st, stop)
    ensures Run(s, i, st, stop).at <= NulIndex(s)
    decreases NulIndex(s) - i
  {
    var c := UpToNul(s);
    if i < NulIndex(s) {
      if s[i] == BACKSLASH || st.escaped {
        UnescapeUpToNul(s, i);
      }
      assert Step(s, i, st, stop) == Step(c, i, st, stop) by {
        UnescapeUpToNul(s, i);
      }
      match Step(c, i, st, stop)
      case Next(j, st') =>
        RunUpToNul(s, j, st', stop);
      case Halt(_, _) =>
    }
  }

  /** How a scan from an unescaped state ends: at the first NUL (or the end
      of the buffer) with `ERR_OK`; or earlier, with `ERR_BAD_UNQUOTED` at a
      plain non-digit byte under the numeric hypothesis; or earlier, with
      `ERR_OK` because the last callback invocation asked to stop. */
  lemma {:induction false} RunEnds(s: seq<byte>, i: nat, st: Scan, stop: nat -> bool)
    requires i <= NulIndex(s) && !st.escaped
    ensures var r := Run(s, i, st, stop);
            || (r.status == Ok && r.at == NulIndex(s))
            || (r.status == BadUnquoted && r.at < NulIndex(s) && r.st.number && !r.st.quoted &&
                IsPlain(s[r.at]) && !IsDigit(s[r.at]))
            || (r.status == Ok && r.at < NulIndex(s) && |r.st.calls| > 0 && stop(|r.st.calls| - 1))
    decreases |s| - i
  {
    if i < |s| && s[i] != NUL {
      StepEnds(s, i, st, stop);
      match Step(s, i, st, stop)
      case Next(j, st') =>
        RunEnds(s, j, st', stop);
      case Halt(_, _) =>
    }
  }

  /** One step of `RunEnds`: it stays inside the C string and out of an
      escape, or halts at a non-digit after a digit, or after a non-zero
      answer from the callback. */
  lemma StepEnds(s: seq<byte>, i: nat, st: Scan, stop: nat -> bool)
    requires i < NulIndex(s) && !st.escaped
    ensures match Step(s, i, st, stop)
            case Next(j, st') => j <= NulIndex(s) && !st'.escaped
            case Halt(status, st') =>
              || (status == BadUnquoted && st'.number && !st'.quoted && IsPlain(s[i]) && !IsDigit(s[i]))
              || (status == Ok && |st'.calls| > 0 && stop(|st'.calls| - 1))
  {
    if st.quoted {
      QuotedEnds(s, i, st, stop);
    } else {
      UnquotedEnds(s, i, st);
    }
  }

  /** Inside a literal only the callback can stop the parse. */
  lemma QuotedEnds(s: seq<byte>, i: nat, st: Scan, stop: nat -> bool)
    requires i < |s| && !st.escaped && st.quoted
    ensures match StepQuoted(s, i, st, stop)
            case Next(_, st') => !st'.escaped
            case Halt(status, st') => status == Ok && |st'.calls| > 0 && stop(|st'.calls| - 1)
  {
  }

  /** Outside a literal only a non-digit after a digit stops the parse. */
  lemma UnquotedEnds(s: seq<byte>, i: nat, st: Scan)
    requires i < |s| && s[i] != NUL && !st.escaped && !st.quoted
    ensures match StepUnquoted(s, i, st)
            case Next(_, st') => !st'.escaped
            case Halt(status, st') => status == BadUnquoted && st'.number && !st'.quoted && IsPlain(s[i]) && !IsDigit(s[i])
  {
  }

  /** `parse` passes every token to `setValue` as quoted, so the keyword
      branch is never reached: `d_val` ends as it began or as a String, an
      Int or a Real. */
  lemma {:induction false} RunDecodesNoKeyword(s: seq<byte>, i: nat, st: Scan, stop: nat -> bool)
    requires i <= |s| && !st.escaped
    ensures var v := Run(s, i, st, stop).st.val;
            v == st.val || v.String? || v.Int? || v.Real?
    decreases |s| - i
  {
    if i < |s| && s[i] != NUL {
      if st.quoted && s[i] == QUOTE {
        SetValueNumberKind(st.val, st.cur, true);
      }
      match Step(s, i, st, stop)
      case Next(j, st') =>
        RunDecodesNoKeyword(s, j, st', stop);
      case Halt(_, _) =>
    }
  }
}
