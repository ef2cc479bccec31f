/** The scan loop of `ay::JSON_SAX_parser` (ay_json.h:48-225).

    `Step` is one iteration of the `for` loop of `parse` (lines 153-223) as a
    function of the input, the position, the loop's flags and the parser
    fields; `Run` iterates it; the class `JsonSaxParser` holds the fields and
    its method `Parse` is the loop itself, proved to compute what `Run` says.

    The callback is an appended trace plus an oracle: every invocation
    appends the current `d_event` to `calls`, and `stop(k)` is what the k-th
    invocation (counting from 0) returns. The source looks at that answer
    only in the quoted branch (line 184). */
module JsonSax {
  import opened Bytes
  import opened JsonValue
  import opened JsonDecode

  /** `ErrStatus` (lines 59-67). `parse` returns `Ok`, `BadUnquoted` or
      `Unicode`; the other codes are declared and never produced. */
  datatype Status = Ok | BadUnquoted | BadNumber | BadComma | Semicolon | Unicode | Escape

  /** `Event` (lines 68-78). */
  datatype Event = ObjectStart | ObjectEnd | NvpairName | NvpairValueStart | NvpairValueEnd | ValueAtomic

  /** What one iteration reads and writes: the loop's local flags `isQuoted`,
      `isEscaped` and `isNumber`, and the fields `d_readyForValue`, `d_event`,
      `d_curStr`, `d_val`, together with the callback trace. */
  datatype Scan = Scan(
    quoted: bool,
    escaped: bool,
    number: bool,
    ready: bool,
    event: Event,
    cur: seq<byte>,
    val: Value,
    calls: seq<Event>)

  /** An iteration either moves on to position `pos` or makes `parse` return. */
  datatype Stepped = Next(pos: nat, st: Scan) | Halt(status: Status, st: Scan)

  /** `parse`'s return value, the state at that moment, and the position of
      the byte it stopped at. */
  datatype Outcome = Outcome(status: Status, st: Scan, at: nat)

  /** `cb((d_event = e, *this))`: set the event, then invoke the callback. */
  function Invoke(st: Scan, e: Event): Scan {
    st.(event := e, calls := st.calls + [e])
  }

  /** One iteration of the loop at `s[i]`.
      - Escaped (line 155): the escape table, or the `\uXXXX` decode that
        consumes four more bytes; `isEscaped` is not cleared there.
      - Quoted (line 176): a `"` closes the literal and decodes the token as
        quoted; the byte is not appended. Then, if `d_readyForValue`, the
        callback runs and may stop the parse with `ERR_OK`; otherwise all
        three flags are cleared.
      - Unquoted (line 192): `{ } : ,` invoke the callback with their events,
        space is skipped, `"` opens a literal; a digit is appended (and marks
        the token numeric when the token is still empty); any other byte
        fails with `ERR_BAD_UNQUOTED` under the numeric hypothesis and is
        otherwise appended twice (lines 218 and 220). */
  function Step(s: seq<byte>, i: nat, st: Scan, stop: nat -> bool): (r: Stepped)
    requires i < |s|
    ensures r.Next? ==> i < r.pos <= |s|
    ensures r.Next? && r.pos != i + 1 ==> st.escaped && s[i] == 'u' as byte && r.pos == i + 5
    ensures st.calls <= r.st.calls && st.cur <= r.st.cur
    ensures |r.st.calls| <= |st.calls| + 2
  {
    if st.escaped then StepEscaped(s, i, st)
    else if st.quoted then StepQuoted(s, i, st, stop)
    else StepUnquoted(s, i, st)
  }

  /** Lines 155-175. */
  function StepEscaped(s: seq<byte>, i: nat, st: Scan): (r: Stepped)
    requires i < |s| && st.escaped
    ensures r.Next? ==> i < r.pos <= |s|
    ensures r.Next? && r.pos != i + 1 ==> s[i] == 'u' as byte && r.pos == i + 5
    ensures r.st.calls == st.calls && st.cur <= r.st.cur
  {
    match Unescape(s, i)
    case None => Halt(Unicode, st)
    case Some(u) => Next(i + 1 + u.skip, st.(cur := st.cur + u.bytes))
  }

  /** Lines 176-191. */
  function StepQuoted(s: seq<byte>, i: nat, st: Scan, stop: nat -> bool): (r: Stepped)
    requires i < |s| && !st.escaped && st.quoted
    ensures r.Next? ==> r.pos == i + 1
    ensures st.calls <= r.st.calls && |r.st.calls| <= |st.calls| + 1 && r.st.cur == st.cur
  {
    var tc := s[i];
    var st1 := if tc == QUOTE then st.(quoted := false, val := SetValue(st.val, st.cur, true, st.number)) else st;
    if st1.ready then
      var st2 := st1.(calls := st1.calls + [st1.event]);
      if stop(|st1.calls|) then Halt(Ok, st2) else Next(i + 1, st2.(ready := false))
    else
      Next(i + 1, st1.(number := false, escaped := false, quoted := false))
  }

  /** Lines 192-221. */
  function StepUnquoted(s: seq<byte>, i: nat, st: Scan): (r: Stepped)
    requires i < |s| && !st.escaped && !st.quoted
    ensures r.Next? ==> r.pos == i + 1
    ensures st.calls <= r.st.calls && |r.st.calls| <= |st.calls| + 2 && st.cur <= r.st.cur
  {
    var tc := s[i];
    if tc == '{' as byte then Next(i + 1, Invoke(st, ObjectStart))
    else if tc == '}' as byte then Next(i + 1, Invoke(Invoke(st, NvpairValueEnd), ObjectEnd))
    else if tc == ':' as byte then Next(i + 1, Invoke(st, NvpairValueStart))
    else if tc == ',' as byte then Next(i + 1, Invoke(Invoke(st, NvpairValueEnd), ObjectEnd))
    else if tc == SPACE then Next(i + 1, st)
    else if tc == QUOTE then Next(i + 1, st.(quoted := true))
    else if IsDigit(tc) then Next(i + 1, st.(number := st.number || st.cur == [], cur := st.cur + [tc]))
    else if st.number then Halt(BadUnquoted, st)
    else Next(i + 1, st.(cur := st.cur + [tc, tc]))
  }

  /** The loop from position `i` on. It runs while `t < str_end && *t`, so it
      ends at the end of the buffer or at its first NUL, whichever is first,
      and then returns `ERR_OK` (the source falls off the end of `parse`). */
  function Run(s: seq<byte>, i: nat, st: Scan, stop: nat -> bool): (r: Outcome)
    requires i <= |s|
    ensures i <= r.at <= |s|
    ensures st.calls <= r.st.calls && st.cur <= r.st.cur
    decreases |s| - i
  {
    if i < |s| && s[i] != NUL then
      match Step(s, i, st, stop)
      case Next(j, st') => Run(s, j, st', stop)
      case Halt(status, st') => Outcome(status, st', i)
    else
      Outcome(Ok, st, i)
  }

  /** The state at the top of the loop: the three flags start false, the
      fields hold whatever the parser object holds. */
  function Start(ready: bool, event: Event, cur: seq<byte>, val: Value, calls: seq<Event>): Scan {
    Scan(false, false, false, ready, event, cur, val, calls)
  }

  class JsonSaxParser {
    /** `d_readyForValue`: never initialised by the source, and never set
        true by `parse` itself (the callback is taken to write no field). */
    var readyForValue: bool
    /** `d_event`: the event the callback reads. */
    var event: Event
    /** `d_curStr`: the token accumulator; nothing in the source clears it. */
    var curStr: seq<byte>
    /** `d_val`: the last decoded value. */
    var val: Value
    /** The callback invocations so far, each with the `d_event` it saw. */
    var calls: seq<Event>

    /** `JSON_SAX_parser()`. `d_readyForValue` and `d_event` are left
        uninitialised by the source; their indeterminate initial values are
        the parameters. */
    constructor (ready: bool, initialEvent: Event)
      ensures readyForValue == ready && event == initialEvent
      ensures curStr == [] && val == Undefined && calls == []
    {
      readyForValue := ready;
      event := initialEvent;
      curStr := [];
      val := Undefined;
      calls := [];
    }

    /** The fields together with the loop's three flags. */
    function State(quoted: bool, escaped: bool, number: bool): Scan
      reads this
    {
      Scan(quoted, escaped, number, readyForValue, event, curStr, val, calls)
    }

    /** `push_unicode(d_curStr, h)`: when all four bytes are hex digits,
        append the two bytes they encode and succeed; otherwise fail and
        leave the token alone. */
    method PushUnicode(h: seq<byte>) returns (ok: bool)
      requires |h| == 4
      modifies this`curStr
      ensures ok <==> AllHex(h)
      ensures curStr == if ok then old(curStr) + UnicodeBytes(h) else old(curStr)
    {
      if IsHexDigit(h[0]) && IsHexDigit(h[1]) && IsHexDigit(h[2]) && IsHexDigit(h[3]) {
        curStr := curStr + [(HexValue(h[0]) * 16 + HexValue(h[1])) as byte];
        curStr := curStr + [(HexValue(h[2]) * 16 + HexValue(h[3])) as byte];
        ok := true;
      } else {
        ok := false;
      }
    }

    /** The iteration at `s[t]` turned `before` into the current fields and
        the flags `quoted`, `escaped`, `number`, and either moved on to
        `next` (`halt` false) or made `parse` return `status`. */
    ghost predicate Stepped(s: seq<byte>, t: nat, before: Scan, stop: nat -> bool,
                            halt: bool, status: Status, next: nat, quoted: bool, escaped: bool, number: bool)
      requires t < |s|
      reads this
    {
      var r := Step(s, t, before, stop);
      if halt then r == Halt(status, State(quoted, escaped, number))
      else r == Next(next, State(quoted, escaped, number))
    }

    /** Lines 155-175: the byte after a backslash inside a literal. */
    method ScanEscaped(s: seq<byte>, t: nat, isQuoted: bool, isNumber: bool, ghost stop: nat -> bool)
      returns (halt: bool, status: Status, next: nat)
      requires t < |s|
      modifies this`curStr
      ensures Stepped(s, t, old(State(isQuoted, true, isNumber)), stop, halt, status, next, isQuoted, true, isNumber)
    {
      var tc := s[t];
      var c: byte := 0;
      halt, status, next := false, Ok, t + 1;
      if tc == 'u' as byte {
        var ok := false;
        if t + 4 < |s| {
          ok := PushUnicode(s[t + 1..t + 5]);
        }
        if !ok {
          return true, Unicode, t;
        }
        next := t + 5;
      } else {
        match EscapeTable(tc)
        case Some(b) => c := b;
        case None =>
      }
      if c != NUL {
        curStr := curStr + [c];
      }
    }

    /** Lines 176-191: a byte inside a literal that is not escaped. */
    method ScanQuoted(s: seq<byte>, t: nat, isNumber: bool, stop: nat -> bool)
      returns (halt: bool, status: Status, quoted: bool, escaped: bool, number: bool)
      requires t < |s|
      modifies this`val, this`calls, this`readyForValue
      ensures Stepped(s, t, old(State(true, false, isNumber)), stop, halt, status, t + 1, quoted, escaped, number)
    {
      var tc := s[t];
      halt, status, quoted, number := false, Ok, true, isNumber;
      if tc == QUOTE {
        quoted := false;
        val := SetValue(val, curStr, true, isNumber);
      }
      escaped := false;
      if readyForValue {
        calls := calls + [event];
        if stop(|calls| - 1) {
          return true, Ok, quoted, escaped, number;
        }
        readyForValue := false;
      } else {
        number := false;
        escaped := false;
        quoted := false;
      }
    }

    /** Lines 192-221: a byte outside any literal. */
    method ScanUnquoted(s: seq<byte>, t: nat, isNumber: bool, ghost stop: nat -> bool)
      returns (halt: bool, status: Status, quoted: bool, number: bool)
      requires t < |s|
      modifies this`event, this`calls, this`curStr
      ensures Stepped(s, t, old(State(false, false, isNumber)), stop, halt, status, t + 1, quoted, false, number)
    {
      var tc := s[t];
      halt, status, quoted, number := false, Ok, false, isNumber;
      if tc == '{' as byte {
        event := ObjectStart;
        calls := calls + [event];
      } else if tc == '}' as byte {
        event := NvpairValueEnd;
        calls := calls + [event];
        event := ObjectEnd;
        calls := calls + [event];
      } else if tc == ':' as byte {
        event := NvpairValueStart;
        calls := calls + [event];
      } else if tc == ',' as byte {
        event := NvpairValueEnd;
        calls := calls + [event];
        event := ObjectEnd;
        calls := calls + [event];
      } else if tc == SPACE {
      } else if tc == QUOTE {
        quoted := true;
      } else if IsDigit(tc) {
        if |curStr| == 0 {
          number := true;
        }
        curStr := curStr + [tc];
      } else if isNumber {
        return true, BadUnquoted, quoted, number;
      } else {
        curStr := curStr + [tc];
        curStr := curStr + [tc];
      }
    }

    /** `parse(cb, str, s_len)` with `s` the `s_len` bytes at `str` and
        `stop` the callback's answers. The status and every field afterwards
        are those `Run` gives from the start of the buffer. */
    method Parse(s: seq<byte>, stop: nat -> bool) returns (status: Status)
      modifies this
      ensures var r := Run(s, 0, Start(old(readyForValue), old(event), old(curStr), old(val), old(calls)), stop);
              status == r.status &&
              readyForValue == r.st.ready && event == r.st.event && curStr == r.st.cur &&
              val == r.st.val && calls == r.st.calls
    {
      ghost var start := Start(readyForValue, event, curStr, val, calls);
      var isQuoted, isEscaped, isNumber := false, false, false;
      var t := 0;
      while t < |s| && s[t] != NUL
        invariant t <= |s|
        invariant Run(s, t, State(isQuoted, isEscaped, isNumber), stop) == Run(s, 0, start, stop)
        decreases |s| - t
      {
        ghost var before := State(isQuoted, isEscaped, isNumber);
        var halt, next;
        if isEscaped {
          halt, status, next := ScanEscaped(s, t, isQuoted, isNumber, stop);
        } else if isQuoted {
          halt, status, isQuoted, isEscaped, isNumber := ScanQuoted(s, t, isNumber, stop);
          next := t + 1;
        } else {
          halt, status, isQuoted, isNumber := ScanUnquoted(s, t, isNumber, stop);
          next := t + 1;
        }
        if halt {
          assert Run(s, 0, start, stop) == Outcome(status, State(isQuoted, isEscaped, isNumber), t);
          return;
        }
        t := next;
      }
      status := Ok;
      assert Run(s, 0, start, stop) == Outcome(status, State(isQuoted, isEscaped, isNumber), t);
    }
  }
}
