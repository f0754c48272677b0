// The RESP2 codec: replies as values of a whole byte stream, the encoder, and the guards.
// Characters stand for bytes.

module Resp {
  import opened Json
  import opened Text

  datatype RedisValue =
    | Nil
    | Status(text: string)
    | ErrorReply(text: string)
    | Integer(value: int)
    | Bulk(bytes: string)
    | Array(items: seq<RedisValue>)

  datatype ReplyError =
    | Closed | EmptyLine | LineTooLong | BadInteger | BadLength | TooLong | BadCount | UnknownType | TooDeep

  /** What reading yields, and the bytes that stay unread. */
  datatype Parsed<T> = Parsed(value: T, rest: string) | Failed(error: ReplyError)

  const MaxReplyDepth := 32
  const MaxArrayElements := 4 * 1024 * 1024

  // ------------------------------------------------------------------ lines

  /** Position of the first CR LF, or -1. */
  function Crlf(s: string): (k: int)
    ensures -1 <= k && (k >= 0 ==> k + 2 <= |s| && s[k] == '\r' && s[k + 1] == '\n')
  {
    if |s| < 2 then -1
    else if s[0] == '\r' && s[1] == '\n' then 0
    else
      var r := Crlf(s[1..]);
      if r < 0 then -1 else r + 1
  }

  const NewLine := "\r\n"

  function LineOf(s: string, max: nat): Parsed<string> {
    var k := Crlf(s);
    if k < 0 then Failed(Closed)
    else if k > max then Failed(LineTooLong)
    else Parsed(s[..k], s[k + 2..])
  }

  function Exactly(s: string, count: nat): Parsed<string> {
    if |s| < count then Failed(Closed) else Parsed(s[..count], s[count..])
  }

  /** More bytes do not move the first CR LF. */
  lemma {:induction false} CrlfStays(s: string, more: string)
    requires Crlf(s) >= 0
    ensures Crlf(s + more) == Crlf(s)
  {
    assert (s + more)[0] == s[0] && (s + more)[1] == s[1];
    if !(s[0] == '\r' && s[1] == '\n') {
      CrlfStays(s[1..], more);
      assert (s + more)[1..] == s[1..] + more;
    }
  }

  /** A line without CR LF is read up to its terminator. */
  lemma {:induction false} CrlfAtEnd(line: string, rest: string)
    requires Crlf(line) < 0
    ensures Crlf(line + NewLine + rest) == |line|
  {
    var s := line + NewLine + rest;
    if line == "" {
      assert s[0] == '\r' && s[1] == '\n';
    } else {
      assert s[1..] == line[1..] + NewLine + rest;
      assert s[0] == line[0];
      if |line| > 1 {
        assert s[1] == line[1];
      } else {
        assert s[1] == '\r';
      }
      CrlfAtEnd(line[1..], rest);
    }
  }

  // ------------------------------------------------------------------ numbers

  const MinInt64 := -0x8000_0000_0000_0000
  const MaxInt64 := 0x7fff_ffff_ffff_ffff

  predicate IsDigit(c: char) {
    '0' <= c <= '9'
  }

  predicate IsSpace(c: char) {
    c == ' ' || 9 <= c as int <= 13
  }

  function DigitOf(c: char): nat
    requires IsDigit(c)
  {
    c as int - '0' as int
  }

  /** Value of the leading digits, on top of `acc`. */
  function Digits(s: string, acc: nat): nat {
    if s == "" || !IsDigit(s[0]) then acc else Digits(s[1..], acc * 10 + DigitOf(s[0]))
  }

  function Skip(s: string): string {
    if s != "" && IsSpace(s[0]) then Skip(s[1..]) else s
  }

  /** `std::stoll`: blanks, a sign, at least one digit, and a value that fits; what follows is ignored. */
  function Stoll(text: string): Option<int> {
    var s := Skip(text);
    var signed := s != "" && (s[0] == '-' || s[0] == '+');
    var body := if signed then s[1..] else s;
    if body == "" || !IsDigit(body[0]) then None
    else
      var n: int := if signed && s[0] == '-' then 0 - Digits(body, 0) else Digits(body, 0);
      if MinInt64 <= n <= MaxInt64 then Some(n) else None
  }

  /** `std::to_string`. */
  function IntText(n: int): string {
    if n < 0 then "-" + Decimal(-n) else Decimal(n)
  }

  lemma {:induction false} DigitsAppend(s: string, d: char, acc: nat)
    requires IsDigit(d) && forall i :: 0 <= i < |s| ==> IsDigit(s[i])
    ensures Digits(s + [d], acc) == Digits(s, acc) * 10 + DigitOf(d)
  {
    var t := s + [d];
    if s == "" {
      assert t[1..] == "";
      assert Digits(t, acc) == Digits(t[1..], acc * 10 + DigitOf(t[0]));
    } else {
      assert t[1..] == s[1..] + [d];
      assert t[0] == s[0] && IsDigit(s[0]);
      DigitsAppend(s[1..], d, acc * 10 + DigitOf(s[0]));
    }
  }

  lemma {:induction false} DecimalValue(n: nat)
    ensures Digits(Decimal(n), 0) == n
  {
    if n < 10 {
      assert Decimal(n) == [Digit(n)];
      assert [Digit(n)][1..] == "";
    } else {
      DecimalValue(n / 10);
      DigitsAppend(Decimal(n / 10), Digit(n % 10), 0);
    }
  }

  /** Reading a printed 64-bit integer gives it back. */
  lemma IntTextRoundTrip(n: int)
    requires MinInt64 <= n <= MaxInt64
    ensures Stoll(IntText(n)) == Some(n)
  {
    var d := Decimal(if n < 0 then -n else n);
    DecimalValue(if n < 0 then -n else n);
    assert IsDigit(d[0]) && !IsSpace(d[0]);
    if n < 0 {
      assert IntText(n)[0] == '-' && IntText(n)[1..] == d;
    }
  }

  /** White space, a sign or none, and digits up to the end or to the first character that is none. */
  predicate NumberText(pad: string, sign: string, digits: string, tail: string) {
    && (forall i :: 0 <= i < |pad| ==> pad[i] as int in {9, 10, 11, 12, 13, 32}) && sign in {"", "-", "+"}
    && digits != "" && (forall i :: 0 <= i < |digits| ==> '0' <= digits[i] <= '9')
    && (tail != "" ==> !('0' <= tail[0] <= '9'))
  }

  lemma {:induction false} SkipPad(pad: string, rest: string)
    requires forall i :: 0 <= i < |pad| ==> IsSpace(pad[i])
    requires rest != "" && !IsSpace(rest[0])
    ensures Skip(pad + rest) == rest
  {
    if pad == "" {
      assert pad + rest == rest;
    } else {
      assert (pad + rest)[1..] == pad[1..] + rest && (pad + rest)[0] == pad[0];
      SkipPad(pad[1..], rest);
    }
  }

  lemma {:induction false} DigitsStop(digits: string, tail: string, acc: nat)
    requires (forall i :: 0 <= i < |digits| ==> IsDigit(digits[i])) && (tail != "" ==> !IsDigit(tail[0]))
    ensures Digits(digits + tail, acc) == Digits(digits, acc)
    decreases |digits|
  {
    if digits == "" {
      assert digits + tail == tail;
    } else {
      assert (digits + tail)[1..] == digits[1..] + tail && (digits + tail)[0] == digits[0];
      DigitsStop(digits[1..], tail, acc * 10 + DigitOf(digits[0]));
    }
  }

  /** Such a text is read as its number if that fits 64 bits; what follows the digits is not looked at. */
  lemma NumberIsRead(pad: string, sign: string, digits: string, tail: string)
    requires NumberText(pad, sign, digits, tail)
    ensures var n: int := if sign == "-" then 0 - Digits(digits, 0) else Digits(digits, 0);
            Stoll(pad + sign + digits + tail) ==
              if -0x8000_0000_0000_0000 <= n <= 0x7fff_ffff_ffff_ffff then Some(n) else None
  {
    var body := digits + tail;
    PadIsSpace(pad, digits);
    assert body[0] == digits[0];
    assert sign + body != "" && !IsSpace((sign + body)[0]);
    SkipPad(pad, sign + body);
    DigitsStop(digits, tail, 0);
    Rejoin(pad, sign, digits, tail);
    SignedRead(pad + sign + digits + tail, sign, body);
    hide Digits, Skip, Stoll;
  }

  lemma PadIsSpace(pad: string, digits: string)
    requires forall i :: 0 <= i < |pad| ==> pad[i] as int in {9, 10, 11, 12, 13, 32}
    requires forall i :: 0 <= i < |digits| ==> '0' <= digits[i] <= '9'
    ensures forall i :: 0 <= i < |pad| ==> IsSpace(pad[i])
    ensures forall i :: 0 <= i < |digits| ==> IsDigit(digits[i]) && !IsSpace(digits[i])
  {
  }

  lemma SignedRead(text: string, sign: string, body: string)
    requires Skip(text) == sign + body && sign in {"", "-", "+"} && body != "" && IsDigit(body[0])
    ensures var n: int := if sign == "-" then 0 - Digits(body, 0) else Digits(body, 0);
            Stoll(text) == if MinInt64 <= n <= MaxInt64 then Some(n) else None
  {
    var s := sign + body;
    assert sign != "" ==> s[0] == sign[0] && s[1..] == body;
    assert sign == "" ==> s == body;
    hide Digits, Skip;
  }

  lemma {:induction false} SkipSplits(text: string) returns (pad: string)
    ensures (forall i :: 0 <= i < |pad| ==> IsSpace(pad[i])) && text == pad + Skip(text)
  {
    pad := "";
    if text != "" && IsSpace(text[0]) {
      var more := SkipSplits(text[1..]);
      pad := [text[0]] + more;
    }
  }

  lemma {:induction false} DigitsSplit(s: string) returns (digits: string, tail: string)
    ensures s == digits + tail && (forall i :: 0 <= i < |digits| ==> IsDigit(digits[i]))
    ensures tail != "" ==> !IsDigit(tail[0])
  {
    if s == "" || !IsDigit(s[0]) {
      return "", s;
    }
    digits, tail := DigitsSplit(s[1..]);
    digits := [s[0]] + digits;
  }

  lemma SignSplits(s: string) returns (sign: string, body: string)
    ensures s == sign + body && sign in {"", "-", "+"}
    ensures sign != "" <==> s != "" && (s[0] == '-' || s[0] == '+')
    ensures sign != "" ==> s[1..] == body
  {
    if s != "" && (s[0] == '-' || s[0] == '+') {
      return [s[0]], s[1..];
    }
    return "", s;
  }

  /** No other text is read as a number. */
  lemma OnlyNumbersAreRead(text: string) returns (pad: string, sign: string, digits: string, tail: string)
    ensures Stoll(text).Some? ==> NumberText(pad, sign, digits, tail) && text == pad + sign + digits + tail
  {
    pad := SkipSplits(text);
    var body;
    sign, body := SignSplits(Skip(text));
    digits, tail := DigitsSplit(body);
    if Stoll(text).Some? {
      assert body != "" && IsDigit(body[0]);
      assert digits != "";
      Rejoin(pad, sign, digits, tail);
    }
    hide Skip, Digits, Stoll;
  }

  lemma Rejoin(pad: string, sign: string, digits: string, tail: string)
    ensures pad + (sign + (digits + tail)) == pad + sign + digits + tail
  {
  }

  lemma {:induction false} NoCrlf(s: string)
    requires forall i :: 0 <= i < |s| ==> s[i] != '\r'
    ensures Crlf(s) < 0
  {
    if |s| >= 2 {
      NoCrlf(s[1..]);
    }
  }

  lemma IntTextOneLine(n: int, kind: char)
    requires kind != '\r'
    ensures Crlf([kind] + IntText(n)) < 0
  {
    NoCrlf([kind] + IntText(n));
  }

  // ------------------------------------------------------------------ replies

  /** The reply at the head of a stream. */
  function ParseReply(s: string, depth: nat, max: nat): Parsed<RedisValue>
    decreases MaxReplyDepth + 2 - depth, 0
  {
    if depth > MaxReplyDepth then Failed(TooDeep)
    else
      var l := LineOf(s, max);
      if l.Failed? then Failed(l.error)
      else if l.value == "" then Failed(EmptyLine)
      else ParseKind(l.value[0], l.value[1..], l.rest, depth, max)
  }

  function ParseKind(kind: char, payload: string, rest: string, depth: nat, max: nat): Parsed<RedisValue>
    requires depth <= MaxReplyDepth
    decreases MaxReplyDepth + 1 - depth, MaxArrayElements + 2
  {
    if kind == '+' then Parsed(Status(payload), rest)
    else if kind == '-' then Parsed(ErrorReply(payload), rest)
    else if kind == ':' then
      var n := Stoll(payload);
      if n.None? then Failed(BadInteger) else Parsed(Integer(n.value), rest)
    else if kind == '$' then ParseBulk(Stoll(payload), rest, max)
    else if kind == '*' then
      var n := Stoll(payload);
      if n.None? then Failed(BadCount)
      else if n.value == -1 then Parsed(Nil, rest)
      else if n.value < -1 || n.value > MaxArrayElements then Failed(BadCount)
      else ParseItems([], rest, n.value, depth + 1, max)
    else Failed(UnknownType)
  }

  /** A length-prefixed string; the two bytes after it are skipped, whatever they are. */
  function ParseBulk(n: Option<int>, rest: string, max: nat): Parsed<RedisValue> {
    if n.None? then Failed(BadLength)
    else if n.value == -1 then Parsed(Nil, rest)
    else if n.value < -1 then Failed(BadLength)
    else if n.value > max then Failed(TooLong)
    else
      var d := Exactly(rest, n.value + 2);
      if d.Failed? then Failed(d.error) else Parsed(Bulk(d.value[..n.value]), d.rest)
  }

  function ParseItems(got: seq<RedisValue>, s: string, n: nat, depth: nat, max: nat): Parsed<RedisValue>
    requires depth <= MaxReplyDepth + 1 && n <= MaxArrayElements
    decreases MaxReplyDepth + 2 - depth, n + 1
  {
    if n == 0 then Parsed(Array(got), s)
    else
      var r := ParseReply(s, depth, max);
      if r.Failed? then Failed(r.error) else ParseItems(got + [r.value], r.rest, n - 1, depth, max)
  }

  // ------------------------------------------------------------------ the encoder

  function Encode(v: RedisValue): string
    decreases v, 0
  {
    match v
    case Nil => "$-1" + NewLine
    case Status(text) => "+" + text + NewLine
    case ErrorReply(text) => "-" + text + NewLine
    case Integer(n) => ":" + IntText(n) + NewLine
    case Bulk(bytes) => "$" + IntText(|bytes|) + NewLine + (bytes + NewLine)
    case Array(items) => "*" + IntText(|items|) + NewLine + EncodeAll(items)
  }

  function EncodeAll(items: seq<RedisValue>): string
    decreases items, 1
  {
    if items == [] then "" else Encode(items[0]) + EncodeAll(items[1..])
  }

  /** Values the guards let through at this depth. */
  ghost predicate Fits(v: RedisValue, depth: nat, max: nat)
    decreases v
  {
    && depth <= 32
    && match v
       case Nil => max >= 3
       case Status(text) => Crlf("+" + text) < 0 && |text| + 1 <= max
       case ErrorReply(text) => Crlf("-" + text) < 0 && |text| + 1 <= max
       case Integer(n) => MinInt64 <= n <= MaxInt64 && |IntText(n)| + 1 <= max
       case Bulk(bytes) => |bytes| <= max && |bytes| <= MaxInt64 && |IntText(|bytes|)| + 1 <= max
       case Array(items) =>
         && |items| <= 4194304 && |IntText(|items|)| + 1 <= max
         && forall i :: 0 <= i < |items| ==> Fits(items[i], depth + 1, max)
  }

  lemma Cut(a: string, b: string, c: string)
    ensures (a + b + c)[..|a|] == a && (a + b + c)[|a| + |b|..] == c
  {
  }

  lemma LineHead(line: string, rest: string, max: nat)
    requires Crlf(line) < 0 && |line| <= max
    ensures LineOf(line + NewLine + rest, max) == Parsed(line, rest)
  {
    CrlfAtEnd(line, rest);
    hide Crlf;
    Cut(line, NewLine, rest);
  }

  /** A reply whose first line is `kind` and `payload`. */
  lemma HeadKind(kind: char, payload: string, rest: string, depth: nat, max: nat)
    requires Crlf([kind] + payload) < 0 && |payload| + 1 <= max && depth <= MaxReplyDepth
    ensures ParseReply([kind] + payload + NewLine + rest, depth, max) == ParseKind(kind, payload, rest, depth, max)
  {
    hide ParseKind, LineOf;
    LineHead([kind] + payload, rest, max);
    assert ([kind] + payload)[1..] == payload;
  }

  lemma BulkHead(bytes: string, rest: string, max: nat)
    requires |bytes| <= max
    ensures ParseBulk(Some(|bytes|), bytes + NewLine + rest, max) == Parsed(Bulk(bytes), rest)
  {
    var s := bytes + NewLine + rest;
    assert s[..|bytes| + 2][..|bytes|] == bytes;
    assert s[|bytes| + 2..] == rest;
  }

  /** Every value the guards allow is read back from its encoding, and nothing of what follows is touched. */
  lemma {:induction false} RoundTrip(v: RedisValue, rest: string, depth: nat, max: nat)
    requires Fits(v, depth, max)
    ensures ParseReply(Encode(v) + rest, depth, max) == Parsed(v, rest)
    decreases v, if v.Array? then |v.items| + 1 else 0
  {
    hide ParseReply, Stoll, Crlf, IntText;
    match v
    case Nil =>
      NilRoundTrip(rest, depth, max);
    case Status(text) =>
      HeadKind('+', text, rest, depth, max);
      assert Encode(v) + rest == ['+'] + text + NewLine + rest;
    case ErrorReply(text) =>
      HeadKind('-', text, rest, depth, max);
      assert Encode(v) + rest == ['-'] + text + NewLine + rest;
    case Integer(n) =>
      IntTextRoundTrip(n);
      IntTextOneLine(n, ':');
      HeadKind(':', IntText(n), rest, depth, max);
      assert Encode(v) + rest == [':'] + IntText(n) + NewLine + rest;
    case Bulk(bytes) =>
      BulkRoundTrip(bytes, rest, depth, max);
    case Array(items) =>
      IntTextRoundTrip(|items|);
      IntTextOneLine(|items|, '*');
      HeadKind('*', IntText(|items|), EncodeAll(items) + rest, depth, max);
      assert Encode(v) + rest == ['*'] + IntText(|items|) + NewLine + (EncodeAll(items) + rest);
      ItemsRoundTrip([], items, rest, depth + 1, max, v);
      assert [] + items == items;
  }

  lemma NilRoundTrip(rest: string, depth: nat, max: nat)
    requires depth <= MaxReplyDepth && max >= 3
    ensures ParseReply(Encode(Nil) + rest, depth, max) == Parsed(Nil, rest)
  {
    NoCrlf("$-1");
    assert ['$'] + "-1" == "$-1";
    HeadKind('$', "-1", rest, depth, max);
    assert "-1"[1..] == "1" && "1"[1..] == "";
    assert Digits("1", 0) == Digits("", 1) == 1;
    assert Stoll("-1") == Some(-1);
    assert Encode(Nil) + rest == ['$'] + "-1" + NewLine + rest;
  }

  lemma BulkRoundTrip(bytes: string, rest: string, depth: nat, max: nat)
    requires Fits(Bulk(bytes), depth, max)
    ensures ParseReply(Encode(Bulk(bytes)) + rest, depth, max) == Parsed(Bulk(bytes), rest)
  {
    hide ParseReply, Stoll, Crlf, IntText, ParseBulk;
    IntTextRoundTrip(|bytes|);
    IntTextOneLine(|bytes|, '$');
    HeadKind('$', IntText(|bytes|), bytes + NewLine + rest, depth, max);
    BulkHead(bytes, rest, max);
    assert Encode(Bulk(bytes)) + rest == ['$'] + IntText(|bytes|) + NewLine + (bytes + NewLine + rest);
  }

  lemma {:induction false} ItemsRoundTrip(got: seq<RedisValue>, items: seq<RedisValue>, rest: string, depth: nat,
                                          max: nat, whole: RedisValue)
    requires depth <= MaxReplyDepth + 1 && |items| <= MaxArrayElements
    requires forall i :: 0 <= i < |items| ==> Fits(items[i], depth, max) && items[i] < whole
    ensures ParseItems(got, EncodeAll(items) + rest, |items|, depth, max) == Parsed(Array(got + items), rest)
    decreases whole, |items|
  {
    hide ParseReply, Fits, Encode;
    if items == [] {
      assert got + items == got;
      assert EncodeAll(items) + rest == rest;
    } else {
      RoundTrip(items[0], EncodeAll(items[1..]) + rest, depth, max);
      assert EncodeAll(items) + rest == Encode(items[0]) + (EncodeAll(items[1..]) + rest);
      ItemsRoundTrip(got + [items[0]], items[1..], rest, depth, max, whole);
      assert got + [items[0]] + items[1..] == got + items;
    }
  }

  // ------------------------------------------------------------------ nothing else is read back

  lemma HeadRead(kind: char, payload: string, rest: string, depth: nat, max: nat)
    requires Crlf([kind] + payload) < 0
    ensures var r := ParseReply([kind] + payload + NewLine + rest, depth, max);
            r.Parsed? ==>
              depth <= MaxReplyDepth && |payload| + 1 <= max && r == ParseKind(kind, payload, rest, depth, max)
  {
    hide ParseKind;
    CrlfAtEnd([kind] + payload, rest);
    if depth <= MaxReplyDepth && |payload| + 1 <= max {
      HeadKind(kind, payload, rest, depth, max);
    }
    hide Crlf;
  }

  /** A text that holds a line end is read back short. */
  lemma LineCut(kind: char, text: string, rest: string, depth: nat, max: nat)
    requires kind in {'+', '-'} && Crlf([kind] + text) >= 0
    ensures var r := ParseReply([kind] + text + NewLine + rest, depth, max);
            r.Parsed? ==> (r.value.Status? || r.value.ErrorReply?) && |r.value.text| < |text|
  {
    var s := [kind] + text + NewLine + rest;
    CrlfStays([kind] + text, NewLine + rest);
    assert [kind] + text + (NewLine + rest) == s;
    assert ([kind] + text)[0] == kind;
    hide Crlf;
  }

  lemma NumberTooWide(n: int)
    requires !(MinInt64 <= n <= MaxInt64)
    ensures Stoll(IntText(n)).None?
  {
    var d := Decimal(if n < 0 then -n else n);
    DecimalValue(if n < 0 then -n else n);
    assert IsDigit(d[0]) && !IsSpace(d[0]);
    if n < 0 {
      assert IntText(n)[0] == '-' && IntText(n)[1..] == d;
    }
  }

  lemma {:induction false} ItemsKeep(got: seq<RedisValue>, s: string, n: nat, depth: nat, max: nat)
    requires depth <= MaxReplyDepth + 1 && n <= MaxArrayElements
    ensures var r := ParseItems(got, s, n, depth, max);
            r.Parsed? ==> r.value.Array? && got <= r.value.items
    decreases n
  {
    hide ParseReply;
    if n > 0 {
      var r := ParseReply(s, depth, max);
      if r.Parsed? {
        ItemsKeep(got + [r.value], r.rest, n - 1, depth, max);
      }
    }
  }

  /** What is read back from its encoding is a value the guards allow: `Fits` states them exactly. */
  lemma {:induction false} ReadBackFits(v: RedisValue, rest: string, depth: nat, max: nat)
    requires ParseReply(Encode(v) + rest, depth, max).Parsed? && ParseReply(Encode(v) + rest, depth, max).value == v
    ensures Fits(v, depth, max)
    decreases v, if v.Array? then |v.items| + 1 else 0
  {
    hide ParseReply, Stoll, Crlf, IntText, EncodeAll;
    match v
    case Nil =>
      NoCrlf("$-1");
      assert ['$'] + "-1" == "$-1";
      assert Encode(v) + rest == ['$'] + "-1" + NewLine + rest;
      HeadRead('$', "-1", rest, depth, max);
    case Status(text) =>
      assert Encode(v) + rest == ['+'] + text + NewLine + rest;
      TextFits('+', text, rest, depth, max);
    case ErrorReply(text) =>
      assert Encode(v) + rest == ['-'] + text + NewLine + rest;
      TextFits('-', text, rest, depth, max);
    case Integer(n) =>
      IntTextOneLine(n, ':');
      HeadRead(':', IntText(n), rest, depth, max);
      assert Encode(v) + rest == [':'] + IntText(n) + NewLine + rest;
      if !(MinInt64 <= n <= MaxInt64) {
        NumberTooWide(n);
      }
    case Bulk(bytes) =>
      BulkFits(bytes, rest, depth, max);
    case Array(items) =>
      ArrayHead(items, rest, depth, max);
      assert [] + items == items;
      ItemsFit([], items, rest, depth + 1, max, v);
  }

  lemma TextFits(kind: char, text: string, rest: string, depth: nat, max: nat)
    requires kind in {'+', '-'} && ParseReply([kind] + text + NewLine + rest, depth, max).Parsed?
    requires var v := ParseReply([kind] + text + NewLine + rest, depth, max).value;
             (v.Status? || v.ErrorReply?) && v.text == text
    ensures depth <= 32 && Crlf([kind] + text) < 0 && |text| + 1 <= max
  {
    hide ParseReply, Crlf;
    if Crlf([kind] + text) >= 0 {
      LineCut(kind, text, rest, depth, max);
    } else {
      HeadRead(kind, text, rest, depth, max);
    }
  }

  lemma BulkFits(bytes: string, rest: string, depth: nat, max: nat)
    requires ParseReply(Encode(Bulk(bytes)) + rest, depth, max).Parsed?
    ensures Fits(Bulk(bytes), depth, max)
  {
    hide ParseReply, Stoll, Crlf, IntText;
    IntTextOneLine(|bytes|, '$');
    HeadRead('$', IntText(|bytes|), bytes + NewLine + rest, depth, max);
    assert Encode(Bulk(bytes)) + rest == ['$'] + IntText(|bytes|) + NewLine + (bytes + NewLine + rest);
    if |bytes| <= MaxInt64 {
      IntTextRoundTrip(|bytes|);
    } else {
      NumberTooWide(|bytes|);
    }
  }

  lemma ArrayHead(items: seq<RedisValue>, rest: string, depth: nat, max: nat)
    requires ParseReply(Encode(Array(items)) + rest, depth, max).Parsed?
    ensures depth <= 32 && |items| <= 4194304 && |IntText(|items|)| + 1 <= max
    ensures ParseReply(Encode(Array(items)) + rest, depth, max)
            == ParseItems([], EncodeAll(items) + rest, |items|, depth + 1, max)
  {
    hide ParseReply, Stoll, Crlf, IntText, EncodeAll, ParseItems;
    IntTextOneLine(|items|, '*');
    HeadRead('*', IntText(|items|), EncodeAll(items) + rest, depth, max);
    assert Encode(Array(items)) + rest == ['*'] + IntText(|items|) + NewLine + (EncodeAll(items) + rest);
    if |items| <= MaxInt64 {
      IntTextRoundTrip(|items|);
    } else {
      NumberTooWide(|items|);
    }
  }

  lemma {:induction false} ItemsFit(got: seq<RedisValue>, items: seq<RedisValue>, rest: string, depth: nat,
                                    max: nat, whole: RedisValue)
    requires depth <= MaxReplyDepth + 1 && |items| <= MaxArrayElements
    requires forall i :: 0 <= i < |items| ==> items[i] < whole
    requires ParseItems(got, EncodeAll(items) + rest, |items|, depth, max).Parsed?
    requires ParseItems(got, EncodeAll(items) + rest, |items|, depth, max).value == Array(got + items)
    ensures forall i :: 0 <= i < |items| ==> Fits(items[i], depth, max)
    decreases whole, |items|
  {
    hide ParseReply, Fits, Encode;
    if items != [] {
      var r := ParseReply(EncodeAll(items) + rest, depth, max);
      ItemsKeep(got + [r.value], r.rest, |items| - 1, depth, max);
      assert (got + [r.value])[|got|] == (got + items)[|got|];
      assert EncodeAll(items) + rest == Encode(items[0]) + (EncodeAll(items[1..]) + rest);
      ReadBackFits(items[0], EncodeAll(items[1..]) + rest, depth, max);
      RoundTrip(items[0], EncodeAll(items[1..]) + rest, depth, max);
      assert got + [items[0]] + items[1..] == got + items;
      ItemsFit(got + [items[0]], items[1..], rest, depth, max, whole);
    }
  }

  /** A value is read back from its encoding exactly when it is within the guards. */
  lemma RoundTripIff(v: RedisValue, rest: string, depth: nat, max: nat)
    ensures ParseReply(Encode(v) + rest, depth, max) == Parsed(v, rest) <==> Fits(v, depth, max)
  {
    if Fits(v, depth, max) {
      RoundTrip(v, rest, depth, max);
    } else if ParseReply(Encode(v) + rest, depth, max) == Parsed(v, rest) {
      ReadBackFits(v, rest, depth, max);
    }
  }

  // ------------------------------------------------------------------ commands and pipelines

  /** A command on the wire: an array of its words as length-prefixed strings. */
  method EncodeCommand(args: seq<string>) returns (out: string)
    ensures out == Encode(Command(args))
  {
    assert EncodeAll(Command(args[..0]).items) == "";
    assert Encode(Command(args)) == "*" + IntText(|args|) + NewLine + EncodeAll(Command(args).items);
    hide Command, EncodeAll, IntText;
    out := "*" + IntText(|args|) + NewLine;
    var i := 0;
    ghost var head := out;
    while i < |args|
      invariant 0 <= i <= |args|
      invariant out == head + EncodeAll(Command(args[..i]).items)
    {
      CommandStep(args, i);
      out := out + ("$" + IntText(|args[i]|) + NewLine + (args[i] + NewLine));
      i := i + 1;
    }
    assert args[..i] == args;
  }

  lemma CommandStep(args: seq<string>, i: nat)
    requires i < |args|
    ensures EncodeAll(Command(args[..i + 1]).items)
            == EncodeAll(Command(args[..i]).items) + ("$" + IntText(|args[i]|) + NewLine + (args[i] + NewLine))
  {
    hide EncodeAll, IntText;
    EncodeAllAppend(Command(args[..i]).items, Bulk(args[i]));
    assert Command(args[..i + 1]).items == Command(args[..i]).items + [Bulk(args[i])];
  }

  function Command(args: seq<string>): RedisValue {
    Array(seq(|args|, i requires 0 <= i < |args| => Bulk(args[i])))
  }

  lemma {:induction false} EncodeAllAppend(items: seq<RedisValue>, v: RedisValue)
    ensures EncodeAll(items + [v]) == EncodeAll(items) + Encode(v)
  {
    hide Encode;
    if items == [] {
      assert ([] + [v])[1..] == [];
    } else {
      assert (items + [v])[1..] == items[1..] + [v];
      EncodeAllAppend(items[1..], v);
    }
  }

  /** A server reading a command gets its words. */
  lemma CommandRoundTrip(args: seq<string>, rest: string, max: nat)
    requires |args| <= MaxArrayElements && |IntText(|args|)| + 1 <= max
    requires forall i :: 0 <= i < |args| ==>
               |args[i]| <= max && |args[i]| <= MaxInt64 && |IntText(|args[i]|)| + 1 <= max
    ensures ParseReply(Encode(Command(args)) + rest, 0, max) == Parsed(Command(args), rest)
  {
    RoundTrip(Command(args), rest, 0, max);
  }

  /** The next `n` replies of a stream, in order. */
  function ParseMany(got: seq<RedisValue>, s: string, n: nat, max: nat): Parsed<seq<RedisValue>>
    decreases n
  {
    if n == 0 then Parsed(got, s)
    else
      var r := ParseReply(s, 0, max);
      if r.Failed? then Failed(r.error) else ParseMany(got + [r.value], r.rest, n - 1, max)
  }

  /** Pipelined replies come back one for each command, in order. */
  lemma {:induction false} PipelineRoundTrip(got: seq<RedisValue>, vs: seq<RedisValue>, rest: string, max: nat)
    requires forall i :: 0 <= i < |vs| ==> Fits(vs[i], 0, max)
    ensures ParseMany(got, EncodeAll(vs) + rest, |vs|, max) == Parsed(got + vs, rest)
    decreases |vs|
  {
    hide ParseReply, Fits, Encode;
    if vs == [] {
      assert got + vs == got && EncodeAll(vs) + rest == rest;
    } else {
      RoundTrip(vs[0], EncodeAll(vs[1..]) + rest, 0, max);
      assert EncodeAll(vs) + rest == Encode(vs[0]) + (EncodeAll(vs[1..]) + rest);
      PipelineRoundTrip(got + [vs[0]], vs[1..], rest, max);
      assert got + [vs[0]] + vs[1..] == got + vs;
    }
  }

  // ------------------------------------------------------------------ the connection

  const CompactThreshold := 64 * 1024

  function Flat(chunks: seq<string>): string {
    if chunks == [] then "" else chunks[0] + Flat(chunks[1..])
  }

  /** The reading end of a connection: what arrives comes in pieces, and consumed bytes are dropped now and then. */
  class Connection {
    const maxBytes: nat
    var buffer: string
    var pos: nat
    var incoming: seq<string>   // pieces not received yet; the peer closes after the last one
    var broken: bool

    ghost predicate Valid()
      reads this
    {
      pos <= |buffer|
    }

    /** All bytes of the stream that have not been read. */
    ghost function Unread(): string
      requires Valid()
      reads this
    {
      buffer[pos..] + Flat(incoming)
    }

    constructor (maxBytes: nat, incoming: seq<string>)
      ensures Valid() && Unread() == Flat(incoming) && !broken && this.maxBytes == maxBytes
    {
      this.maxBytes := maxBytes;
      buffer, pos, this.incoming, broken := "", 0, incoming, false;
    }

    /** Receives one more piece; the buffer may be compacted, the unread bytes stay. */
    method Fill() returns (more: bool)
      requires Valid()
      modifies this
      ensures Valid() && Unread() == old(Unread()) && more == (old(incoming) != [])
      ensures more ==> |incoming| < |old(incoming)| && !broken == old(!broken) && old(buffer[pos..]) <= buffer[pos..]
      ensures !more ==> broken && buffer[pos..] == old(buffer[pos..]) && incoming == []
    {
      ghost var unread := buffer[pos..];
      if pos == |buffer| {
        buffer, pos := "", 0;
      } else if pos > CompactThreshold {
        buffer, pos := buffer[pos..], 0;
      }
      assert buffer[pos..] == unread;
      if incoming == [] {
        broken := true;
        return false;
      }
      var start := buffer;
      buffer := buffer + incoming[0];
      assert buffer[pos..] == start[pos..] + incoming[0];
      incoming := incoming[1..];
      return true;
    }

    /** What a read promises: the value at the head of the unread stream, or its error and a broken connection. */
    ghost predicate Reads<T>(spec: Parsed<T>, r: Result<T, ReplyError>)
      requires Valid()
      reads this
    {
      if spec.Parsed? then r == Ok(spec.value) && Unread() == spec.rest && !broken
      else r == Err(spec.error) && broken
    }

    method ReadLine() returns (r: Result<string, ReplyError>)
      requires Valid() && !broken
      modifies this
      ensures Valid() && Reads(LineOf(old(Unread()), maxBytes), r)
    {
      hide Crlf;
      while true
        invariant Valid() && Unread() == old(Unread()) && !broken
        decreases |incoming|
      {
        var k := Crlf(buffer[pos..]);
        if k >= 0 {
          CrlfStays(buffer[pos..], Flat(incoming));
          if k > maxBytes {
            broken := true;
            return Err(LineTooLong);
          }
          ghost var all := Unread();
          var line := buffer[pos..pos + k];
          assert line == buffer[pos..][..k] == all[..k];
          assert LineOf(all, maxBytes) == Parsed(line, all[k + 2..]);
          pos := pos + k + 2;
          assert buffer[pos..] + Flat(incoming) == all[k + 2..];
          return Ok(line);
        }
        var more := Fill();
        if !more {
          assert Unread() == buffer[pos..] + "" == buffer[pos..];
          return Err(Closed);
        }
      }
    }

    method ReadExact(count: nat) returns (r: Result<string, ReplyError>)
      requires Valid() && !broken
      modifies this
      ensures Valid() && Reads(Exactly(old(Unread()), count), r)
    {
      while |buffer| - pos < count
        invariant Valid() && Unread() == old(Unread()) && !broken
        decreases |incoming|
      {
        var more := Fill();
        if !more {
          assert Unread() == buffer[pos..] + "";
          return Err(Closed);
        }
      }
      ghost var all := Unread();
      var data := buffer[pos..pos + count];
      assert all[..count] == data;
      pos := pos + count;
      assert buffer[pos..] + Flat(incoming) == all[count..];
      return Ok(data);
    }

    /**
     * One reply. The value, the error and the bytes left unread are those of the whole stream, however it
     * is cut into pieces and whenever the buffer is compacted.
     */
    method ReadReply(depth: nat) returns (r: Result<RedisValue, ReplyError>)
      requires Valid() && !broken && depth <= MaxReplyDepth + 1
      modifies this
      ensures Valid() && Reads(ParseReply(old(Unread()), depth, maxBytes), r)
      decreases MaxReplyDepth + 1 - depth
    {
      hide LineOf, Stoll, Exactly, Unread;
      if depth > MaxReplyDepth {
        broken := true;
        return Err(TooDeep);
      }
      var l := ReadLine();
      if l.Err? {
        return Err(l.error);
      }
      var line := l.value;
      if line == "" {
        broken := true;
        return Err(EmptyLine);
      }
      var kind, payload := line[0], line[1..];
      if kind == '+' {
        return Ok(Status(payload));
      } else if kind == '-' {
        return Ok(ErrorReply(payload));
      } else if kind == ':' {
        var n := Stoll(payload);
        if n.None? {
          broken := true;
          return Err(BadInteger);
        }
        return Ok(Integer(n.value));
      } else if kind == '$' {
        var n := Stoll(payload);
        r := ReadBulk(n);
      } else if kind == '*' {
        var n := Stoll(payload);
        if n.None? {
          broken := true;
          return Err(BadCount);
        }
        if n.value == -1 {
          return Ok(Nil);
        }
        if n.value < -1 || n.value > MaxArrayElements {
          broken := true;
          return Err(BadCount);
        }
        var items: seq<RedisValue> := [];
        ghost var spec := ParseItems([], Unread(), n.value, depth + 1, maxBytes);
        var index := 0;
        while index < n.value
          invariant 0 <= index <= n.value && Valid() && !broken
          invariant ParseItems(items, Unread(), n.value - index, depth + 1, maxBytes) == spec
        {
          var item := ReadReply(depth + 1);
          if item.Err? {
            return Err(item.error);
          }
          items := items + [item.value];
          index := index + 1;
        }
        return Ok(Array(items));
      } else {
        broken := true;
        return Err(UnknownType);
      }
    }

    method ReadBulk(n: Option<int>) returns (r: Result<RedisValue, ReplyError>)
      requires Valid() && !broken
      modifies this
      ensures Valid() && Reads(ParseBulk(n, old(Unread()), maxBytes), r)
    {
      hide Exactly, Unread;
      if n.None? {
        broken := true;
        return Err(BadLength);
      }
      if n.value == -1 {
        return Ok(Nil);
      }
      if n.value < -1 {
        broken := true;
        return Err(BadLength);
      }
      if n.value > maxBytes {
        broken := true;
        return Err(TooLong);
      }
      var data := ReadExact(n.value + 2);
      if data.Err? {
        return Err(data.error);
      }
      ExactLength(old(Unread()), n.value + 2);
      return Ok(Bulk(data.value[..n.value]));
    }

    /** The replies to a batch of commands, read one after the other. */
    method ReadReplies(count: nat) returns (r: Result<seq<RedisValue>, ReplyError>)
      requires Valid() && !broken
      modifies this
      ensures Valid() && Reads(ParseMany([], old(Unread()), count, maxBytes), r)
    {
      hide ParseReply, Unread;
      var replies: seq<RedisValue> := [];
      ghost var spec := ParseMany([], Unread(), count, maxBytes);
      var index := 0;
      while index < count
        invariant 0 <= index <= count && Valid() && !broken
        invariant ParseMany(replies, Unread(), count - index, maxBytes) == spec
      {
        var reply := ReadReply(0);
        if reply.Err? {
          return Err(reply.error);
        }
        replies := replies + [reply.value];
        index := index + 1;
      }
      return Ok(replies);
    }
  }

  lemma ExactLength(s: string, count: nat)
    ensures Exactly(s, count).Parsed? ==> |Exactly(s, count).value| == count
  {
  }

}
