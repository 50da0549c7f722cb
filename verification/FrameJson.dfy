/** The hand-written JSON printer of live frames, and a reader for what it prints. */
module FrameJson {
  import opened Text

  // A character of a string stands for one byte. Strings follow section 7 of RFC 8259.

  /* ---- strings ---- */

  predicate NeedsEscape(c: char) { c as int < 0x20 || c == '"' || c == '\\' }

  predicate Plain(s: string) { forall i | 0 <= i < |s| :: !NeedsEscape(s[i]) }

  function HexDigit(b: nat): (c: char)
    requires b < 16
    ensures HexValue(c) == b
  {
    if b < 10 then ('0' as int + b) as char else ('a' as int + (b - 10)) as char
  }

  // -1 for a character that is not a hexadecimal digit.
  function HexValue(c: char): (v: int)
    ensures -1 <= v < 16
  {
    if '0' <= c <= '9' then c as int - '0' as int
    else if 'a' <= c <= 'f' then c as int - 'a' as int + 10
    else if 'A' <= c <= 'F' then c as int - 'A' as int + 10
    else -1
  }

  function Escape(c: char): string {
    if !NeedsEscape(c) then [c]
    else if c == '"' || c == '\\' then ['\\', c]
    else if c == '\n' then ['\\', 'n']
    else if c == '\r' then ['\\', 'r']
    else if c == '\t' then ['\\', 't']
    else ['\\', 'u', '0', '0', HexDigit(c as int / 16), HexDigit(c as int % 16)]
  }

  function EscapeAll(s: string): string {
    if s == "" then "" else EscapeAll(s[..|s| - 1]) + Escape(s[|s| - 1])
  }

  function Quote(s: string): string { ['"'] + EscapeAll(s) + ['"'] }

  const RUNE_ERROR := 0xFFFD

  // utf8.DecodeRuneInString: a byte below 0x80 is a rune of its own; what longer sequences decode to is
  // left to the caller.
  function DecodeRune(s: string, wide: string -> (int, nat)): (int, nat)
    requires s != ""
  {
    if s[0] as int < 0x80 then (s[0] as int, 1) else wide(s)
  }

  lemma {:induction false} EscapePlain(s: string)
    requires Plain(s)
    ensures EscapeAll(s) == s
  {
    if s != "" {
      EscapePlain(s[..|s| - 1]);
      assert s == s[..|s| - 1] + [s[|s| - 1]];
    }
  }

  lemma EscapeSnoc(s: string, c: char)
    ensures EscapeAll(s + [c]) == EscapeAll(s) + Escape(c)
  {
    assert (s + [c])[..|s|] == s;
  }

  // What is built up character by character goes through concatenation.
  lemma {:induction false} BuiltUp(all: string -> string, one: char -> string, a: string, b: string)
    requires all("") == "" && forall s, c :: all(s + [c]) == all(s) + one(c)
    ensures all(a + b) == all(a) + all(b)
    decreases |b|
  {
    if b == "" {
      assert a + b == a;
    } else {
      var n := |b| - 1;
      BuiltUp(all, one, a, b[..n]);
      assert b == b[..n] + [b[n]] && a + b == (a + b[..n]) + [b[n]];
    }
  }

  lemma EscapeConcat(a: string, b: string)
    ensures EscapeAll(a + b) == EscapeAll(a) + EscapeAll(b)
  {
    var all, one := (s: string) => EscapeAll(s), (c: char) => Escape(c);
    forall s, c ensures all(s + [c]) == all(s) + one(c) { EscapeSnoc(s, c); }
    BuiltUp(all, one, a, b);
  }

  lemma EscapeStep(head: string, s: string, i: nat)
    requires i < |s|
    ensures head + EscapeAll(s[..i]) + Escape(s[i]) == head + EscapeAll(s[..i + 1])
  {
    assert s[..i + 1][..i] == s[..i];
  }

  // The escape for one byte; the branch that would write a replacement character cannot be reached.
  method AppendEscape(dst0: string, s: string, i: nat, wide: string -> (int, nat)) returns (dst: string)
    requires i < |s| && NeedsEscape(s[i])
    ensures dst == dst0 + Escape(s[i])
  {
    var c := s[i];
    if c == '"' || c == '\\' {
      dst := dst0 + ['\\', c];
    } else if c == '\n' {
      dst := dst0 + ['\\', 'n'];
    } else if c == '\r' {
      dst := dst0 + ['\\', 'r'];
    } else if c == '\t' {
      dst := dst0 + ['\\', 't'];
    } else {
      var (r, size) := DecodeRune(s[i..], wide);
      if r == RUNE_ERROR && size == 1 {
        assert false;
      }
      dst := dst0 + ['\\', 'u', '0', '0', HexDigit(c as int / 16), HexDigit(c as int % 16)];
    }
  }

  lemma SliceMore(dst: string, s: string, start: nat, i: nat)
    requires start <= i < |s|
    ensures dst + s[start..i + 1] == dst + s[start..i] + [s[i]]
  {
    assert s[start..i + 1] == s[start..i] + [s[i]];
  }

  // Runs of plain bytes are copied in one piece between the cursors start and i.
  method AppendJSONString(dst0: string, s: string, wide: string -> (int, nat)) returns (dst: string)
    ensures dst == dst0 + Quote(s)
  {
    dst := dst0 + ['"'];
    ghost var head := dst;
    var start, i := 0, 0;
    while i < |s|
      invariant start <= i <= |s| && dst + s[start..i] == head + EscapeAll(s[..i])
    {
      var c := s[i];
      EscapeStep(head, s, i);
      if c as int >= 0x20 && c != '"' && c != '\\' {
        SliceMore(dst, s, start, i);
        i := i + 1;
        continue;
      }
      if start < i { dst := dst + s[start..i]; }
      dst := AppendEscape(dst, s, i, wide);
      i := i + 1;
      start := i;
      assert dst + s[start..i] == dst;
    }
    assert s[..|s|] == s && s[start..i] == s[start..];
    if start < |s| { dst := dst + s[start..]; }
    assert dst == head + EscapeAll(s);
    dst := dst + ['"'];
    QuoteWhole(dst0, s);
  }

  lemma QuoteWhole(dst: string, s: string)
    ensures dst + ['"'] + EscapeAll(s) + ['"'] == dst + Quote(s)
  {}

  /* ---- a reader for strings ---- */

  datatype Read<T> = Got(value: T, rest: string) | Bad

  // UTF-8 for a code point below 0x10000.
  function Utf8(cp: nat): string
    requires cp < 0x10000
  {
    if cp < 0x80 then [cp as char]
    else if cp < 0x800 then [(0xC0 + cp / 64) as char, (0x80 + cp % 64) as char]
    else [(0xE0 + cp / 4096) as char, (0x80 + cp / 64 % 64) as char, (0x80 + cp % 64) as char]
  }

  // What follows a backslash. Surrogate halves are refused.
  function ReadEscape(s: string): (r: Read<string>)
    ensures r.Got? ==> |r.rest| < |s|
  {
    if s == "" then Bad
    else if s[0] == '"' || s[0] == '\\' || s[0] == '/' then Got([s[0]], s[1..])
    else if s[0] == 'b' then Got([8 as char], s[1..])
    else if s[0] == 'f' then Got([12 as char], s[1..])
    else if s[0] == 'n' then Got(['\n'], s[1..])
    else if s[0] == 'r' then Got(['\r'], s[1..])
    else if s[0] == 't' then Got(['\t'], s[1..])
    else if s[0] == 'u' && |s| >= 5 then
      var (a, b, c, d) := (HexValue(s[1]), HexValue(s[2]), HexValue(s[3]), HexValue(s[4]));
      if a < 0 || b < 0 || c < 0 || d < 0 then Bad
      else
        var cp := 4096 * a + 256 * b + 16 * c + d;
        if 0xD800 <= cp < 0xE000 then Bad else Got(Utf8(cp), s[5..])
    else Bad
  }

  // The characters of a string up to its closing quotation mark.
  function ReadChars(s: string): (r: Read<string>)
    ensures r.Got? ==> |r.rest| < |s|
    decreases |s|
  {
    if s == "" || s[0] as int < 0x20 then Bad
    else if s[0] == '"' then Got("", s[1..])
    else if s[0] == '\\' then
      match ReadEscape(s[1..])
      case Bad => Bad
      case Got(text, rest) => Prepend(text, ReadChars(rest))
    else Prepend([s[0]], ReadChars(s[1..]))
  }

  function Prepend(text: string, r: Read<string>): Read<string> {
    match r
    case Bad => Bad
    case Got(more, rest) => Got(text + more, rest)
  }

  function ReadString(s: string): (r: Read<string>)
    ensures r.Got? ==> |r.rest| < |s|
  {
    if s != "" && s[0] == '"' then ReadChars(s[1..]) else Bad
  }

  lemma EscapeReadsBack(c: char, tail: string)
    requires NeedsEscape(c)
    ensures Escape(c)[0] == '\\' && ReadEscape((Escape(c) + tail)[1..]) == Got([c], tail)
  {
    var s := (Escape(c) + tail)[1..];
    if c == '"' || c == '\\' || c == '\n' || c == '\r' || c == '\t' {
      assert s[1..] == tail;
    } else {
      assert s[1] == '0' && s[2] == '0' && s[3] == HexDigit(c as int / 16) && s[4] == HexDigit(c as int % 16);
      assert s[5..] == tail;
    }
  }

  lemma EscapeOne(c: char)
    ensures EscapeAll([c]) == Escape(c)
  {
    assert [c][..0] == "";
  }

  lemma EscapeHead(s: string)
    requires s != ""
    ensures EscapeAll(s) == Escape(s[0]) + EscapeAll(s[1..])
  {
    EscapeConcat([s[0]], s[1..]);
    assert [s[0]] + s[1..] == s;
    EscapeOne(s[0]);
  }

  lemma FirstCharReadsBack(c: char, more: string, s: string, tail: string)
    requires ReadChars(more) == Got(s, tail)
    ensures ReadChars(Escape(c) + more) == Got([c] + s, tail)
  {
    if NeedsEscape(c) {
      EscapeReadsBack(c, more);
    } else {
      assert (Escape(c) + more)[1..] == more;
    }
  }

  lemma CharsText(s: string, tail: string)
    requires s != ""
    ensures EscapeAll(s) + ['"'] + tail == Escape(s[0]) + (EscapeAll(s[1..]) + ['"'] + tail)
  {
    EscapeHead(s);
  }

  lemma {:induction false} CharsReadBack(s: string, tail: string)
    ensures ReadChars(EscapeAll(s) + ['"'] + tail) == Got(s, tail)
    decreases |s|
  {
    if s == "" {
      assert (EscapeAll(s) + ['"'] + tail)[1..] == tail;
    } else {
      CharsText(s, tail);
      CharsReadBack(s[1..], tail);
      FirstCharReadsBack(s[0], EscapeAll(s[1..]) + ['"'] + tail, s[1..], tail);
      assert s == [s[0]] + s[1..];
    }
  }

  // A printed string is read back whole, whatever follows its closing quotation mark.
  lemma StringReadsBack(s: string, tail: string)
    ensures ReadString(Quote(s) + tail) == Got(s, tail)
  {
    CharsReadBack(s, tail);
    QuoteText(s, tail);
  }

  lemma QuoteText(s: string, tail: string)
    ensures Quote(s) + tail != "" && (Quote(s) + tail)[0] == '"'
            && (Quote(s) + tail)[1..] == EscapeAll(s) + ['"'] + tail
  {}

  /* ---- values ---- */

  datatype Value = Str(text: string) | Num(number: nat) | Obj(members: seq<Member>)
  datatype Member = Member(key: string, value: Value)

  function PrintValue(v: Value): (r: string)
    ensures r != ""
    decreases v, 1
  {
    match v
    case Str(s) => Quote(s)
    case Num(n) => Decimal(n)
    case Obj(ms) => ['{'] + PrintMembers(ms) + ['}']
  }

  function PrintMembers(ms: seq<Member>): string
    decreases ms, 0
  {
    if ms == [] then ""
    else if |ms| == 1 then PrintMember(ms[0])
    else PrintMember(ms[0]) + [','] + PrintMembers(ms[1..])
  }

  function PrintMember(m: Member): string
    decreases m, 2
  {
    Quote(m.key) + [':'] + PrintValue(m.value)
  }

  function DigitRun(s: string): (n: nat)
    ensures n <= |s| && forall i | 0 <= i < n :: IsDigit(s[i])
  {
    if s == "" || !IsDigit(s[0]) then 0 else 1 + DigitRun(s[1..])
  }

  function ReadNumber(s: string): (r: Read<nat>)
    ensures r.Got? ==> |r.rest| < |s|
  {
    var n := DigitRun(s);
    if n == 0 || (n > 1 && s[0] == '0') then Bad else Got(Text.Value(s[..n]), s[n..])
  }

  function ReadValue(s: string): (r: Read<Value>)
    ensures r.Got? ==> |r.rest| < |s|
    decreases |s|
  {
    if s == "" then Bad
    else if s[0] == '"' then
      match ReadString(s)
      case Bad => Bad
      case Got(text, rest) => Got(Str(text), rest)
    else if s[0] == '{' then
      if |s| > 1 && s[1] == '}' then Got(Obj([]), s[2..])
      else
        match ReadMembers(s[1..])
        case Bad => Bad
        case Got(ms, rest) => Got(Obj(ms), rest)
    else
      match ReadNumber(s)
      case Bad => Bad
      case Got(n, rest) => Got(Num(n), rest)
  }

  function ReadMember(s: string): (r: Read<Member>)
    ensures r.Got? ==> |r.rest| < |s|
    decreases |s|, 0
  {
    match ReadString(s)
    case Bad => Bad
    case Got(key, rest) =>
      if rest == "" || rest[0] != ':' then Bad
      else
        match ReadValue(rest[1..])
        case Bad => Bad
        case Got(v, rest2) => Got(Member(key, v), rest2)
  }

  // Members up to the closing brace, at least one.
  function ReadMembers(s: string): (r: Read<seq<Member>>)
    ensures r.Got? ==> |r.rest| < |s|
    decreases |s|, 1
  {
    match ReadMember(s)
    case Bad => Bad
    case Got(m, rest) =>
      if rest == "" then Bad
      else if rest[0] == '}' then Got([m], rest[1..])
      else if rest[0] == ',' then
        match ReadMembers(rest[1..])
        case Bad => Bad
        case Got(ms, rest2) => Got([m] + ms, rest2)
      else Bad
  }

  predicate NoDigitNext(tail: string) { tail == "" || !IsDigit(tail[0]) }

  lemma {:induction false} DigitRunStops(digits: string, tail: string)
    requires NoDigitNext(tail) && forall i | 0 <= i < |digits| :: IsDigit(digits[i])
    ensures DigitRun(digits + tail) == |digits|
  {
    if digits == "" {
      assert digits + tail == tail;
    } else {
      assert (digits + tail)[1..] == digits[1..] + tail;
      DigitRunStops(digits[1..], tail);
    }
  }

  lemma {:induction false} NoLeadingZero(n: nat)
    ensures Decimal(n)[0] == '0' ==> |Decimal(n)| == 1
    ensures n > 0 ==> Decimal(n)[0] != '0'
  {
    if n >= 10 { NoLeadingZero(n / 10); }
  }

  lemma NumberReadsBack(n: nat, tail: string)
    requires NoDigitNext(tail)
    ensures ReadNumber(Decimal(n) + tail) == Got(n, tail)
  {
    DigitRunStops(Decimal(n), tail);
    NoLeadingZero(n);
    ValueOfDecimal(n);
    assert (Decimal(n) + tail)[..|Decimal(n)|] == Decimal(n);
    assert (Decimal(n) + tail)[|Decimal(n)|..] == tail;
  }

  lemma BodyReadsBack(ms: seq<Member>, body: string, tail: string)
    requires ReadMembers(body) == Got(ms, tail) && body != "" && body[0] != '}'
    ensures ReadValue(['{'] + body) == Got(Obj(ms), tail)
  {
    assert (['{'] + body)[1..] == body;
  }

  lemma ObjectText(ms: seq<Member>, tail: string)
    ensures PrintValue(Obj(ms)) + tail == ['{'] + (PrintMembers(ms) + ['}'] + tail)
  {}

  lemma EmptyReadsBack(tail: string)
    ensures ReadValue(PrintValue(Obj([])) + tail) == Got(Obj([]), tail)
  {
    var s := PrintValue(Obj([])) + tail;
    assert s == ['{', '}'] + tail;
    assert s[2..] == tail;
  }

  lemma StrReadsBack(text: string, tail: string)
    ensures ReadValue(Quote(text) + tail) == Got(Str(text), tail)
  {
    StringReadsBack(text, tail);
  }

  lemma NumReadsBack(n: nat, tail: string)
    requires NoDigitNext(tail)
    ensures ReadValue(Decimal(n) + tail) == Got(Num(n), tail)
  {
    NumberReadsBack(n, tail);
    assert IsDigit((Decimal(n) + tail)[0]);
  }

  // Whatever value is printed is read back, and what follows it is left alone.
  lemma {:induction false} ValueReadsBack(v: Value, tail: string)
    requires NoDigitNext(tail)
    ensures ReadValue(PrintValue(v) + tail) == Got(v, tail)
    decreases v, 1
  {
    match v
    case Str(text) => StrReadsBack(text, tail);
    case Num(n) => NumReadsBack(n, tail);
    case Obj(ms) =>
      if ms == [] {
        EmptyReadsBack(tail);
      } else {
        MembersReadBack(ms, tail);
        MembersStart(ms);
        BodyReadsBack(ms, PrintMembers(ms) + ['}'] + tail, tail);
        ObjectText(ms, tail);
      }
  }

  lemma MembersStart(ms: seq<Member>)
    requires ms != []
    ensures PrintMembers(ms) != "" && PrintMembers(ms)[0] == '"'
  {}

  lemma {:induction false} MemberReadsBack(m: Member, tail: string)
    requires NoDigitNext(tail)
    ensures ReadMember(PrintMember(m) + tail) == Got(m, tail)
    decreases m, 2
  {
    var rest := [':'] + PrintValue(m.value) + tail;
    assert PrintMember(m) + tail == Quote(m.key) + rest;
    StringReadsBack(m.key, rest);
    assert rest[1..] == PrintValue(m.value) + tail;
    ValueReadsBack(m.value, tail);
  }

  lemma OneMemberReadsBack(m: Member, tail: string)
    requires ReadMember(PrintMember(m) + (['}'] + tail)) == Got(m, ['}'] + tail)
    ensures ReadMembers(PrintMember(m) + (['}'] + tail)) == Got([m], tail)
  {
    assert (['}'] + tail)[1..] == tail;
  }

  lemma MoreMembersReadBack(m: Member, ms: seq<Member>, more: string, tail: string)
    requires ReadMember(PrintMember(m) + ([','] + more)) == Got(m, [','] + more)
    requires ReadMembers(more) == Got(ms, tail)
    ensures ReadMembers(PrintMember(m) + ([','] + more)) == Got([m] + ms, tail)
  {
    assert ([','] + more)[1..] == more;
  }

  lemma OneMemberText(ms: seq<Member>, tail: string)
    requires |ms| == 1
    ensures PrintMembers(ms) + ['}'] + tail == PrintMember(ms[0]) + (['}'] + tail) && ms == [ms[0]]
  {}

  lemma MoreMembersText(ms: seq<Member>, tail: string)
    requires |ms| > 1
    ensures PrintMembers(ms) + ['}'] + tail == PrintMember(ms[0]) + ([','] + (PrintMembers(ms[1..]) + ['}'] + tail))
    ensures ms == [ms[0]] + ms[1..]
  {
    Regroup(PrintMember(ms[0]), [','], PrintMembers(ms[1..]), ['}'], tail);
  }

  lemma Regroup(a: string, b: string, c: string, d: string, e: string)
    ensures a + b + c + d + e == a + (b + (c + d + e))
  {}

  lemma {:induction false} MembersReadBack(ms: seq<Member>, tail: string)
    requires ms != []
    ensures ReadMembers(PrintMembers(ms) + ['}'] + tail) == Got(ms, tail)
    decreases ms, 0
  {
    if |ms| == 1 {
      MemberReadsBack(ms[0], ['}'] + tail);
      OneMemberReadsBack(ms[0], tail);
      OneMemberText(ms, tail);
    } else {
      var more := PrintMembers(ms[1..]) + ['}'] + tail;
      MemberReadsBack(ms[0], [','] + more);
      MembersReadBack(ms[1..], tail);
      MoreMembersReadBack(ms[0], ms[1..], more, tail);
      MoreMembersText(ms, tail);
    }
  }

  /* ---- frames ---- */

  datatype Frame = Frame(kind: string, subject: string, time: string, data: string, headers: map<string, string>,
                         error: string, number: nat)

  const BLANK := Frame("", "", "", "", map[], "", 0)

  datatype Field = Kind | Subject | Time | Data | Headers | Error | Number | Unknown

  function Name(field: Field): (key: string)
    ensures Plain(key)
  {
    match field
    case Kind => "type"
    case Subject => "subject"
    case Time => "time"
    case Data => "data"
    case Headers => "headers"
    case Error => "error"
    case Number => "seq"
    case Unknown => ""
  }

  function FieldOf(key: string): Field {
    if key == "type" then Kind
    else if key == "subject" then Subject
    else if key == "time" then Time
    else if key == "data" then Data
    else if key == "headers" then Headers
    else if key == "error" then Error
    else if key == "seq" then Number
    else Unknown
  }

  // The names on the wire, by which the reader knows the fields.
  lemma FieldOfName(field: Field)
    ensures FieldOf(Name(field)) == field
    ensures Name(Kind) == "type" && Name(Subject) == "subject" && Name(Time) == "time" && Name(Data) == "data"
            && Name(Headers) == "headers" && Name(Error) == "error" && Name(Number) == "seq"
  {
    match field
    case Kind =>
    case Subject => assert Name(Subject)[0] == 's' && |Name(Subject)| == 7;
    case Time => assert Name(Time)[1] == 'i';
    case Data =>
    case Headers =>
    case Error =>
    case Number =>
    case Unknown =>
  }

  function HeaderMap(ms: seq<Member>): map<string, string> {
    if ms == [] then map[]
    else
      var m := ms[|ms| - 1];
      if m.value.Str? then HeaderMap(ms[..|ms| - 1])[m.key := m.value.text] else HeaderMap(ms[..|ms| - 1])
  }

  // Unknown fields, and fields holding another kind of value, are ignored.
  function SetField(f: Frame, m: Member): Frame {
    match (FieldOf(m.key), m.value)
    case (Kind, Str(t)) => f.(kind := t)
    case (Subject, Str(t)) => f.(subject := t)
    case (Time, Str(t)) => f.(time := t)
    case (Data, Str(t)) => f.(data := t)
    case (Headers, Obj(ms)) => f.(headers := HeaderMap(ms))
    case (Error, Str(t)) => f.(error := t)
    case (Number, Num(n)) => f.(number := n)
    case (_, _) => f
  }

  function SetFields(f: Frame, ms: seq<Member>): Frame {
    if ms == [] then f else SetField(SetFields(f, ms[..|ms| - 1]), ms[|ms| - 1])
  }

  function ReadFrame(s: string): Read<Frame> {
    match ReadValue(s)
    case Got(Obj(ms), "") => Got(SetFields(BLANK, ms), "")
    case _ => Bad
  }

  type Header = (string, string)

  function HeaderMembers(hs: seq<Header>): (ms: seq<Member>)
    ensures |ms| == |hs| && forall i | 0 <= i < |hs| :: ms[i] == Member(hs[i].0, Str(hs[i].1))
  {
    seq(|hs|, i requires 0 <= i < |hs| => Member(hs[i].0, Str(hs[i].1)))
  }

  predicate Written(hs: seq<Header>, k: string) { exists i :: 0 <= i < |hs| && hs[i].0 == k }

  predicate Agrees(hs: seq<Header>, headers: map<string, string>) {
    forall i | 0 <= i < |hs| :: hs[i].0 in headers && headers[hs[i].0] == hs[i].1
  }

  // hs visits every header once, in some order.
  ghost predicate Enumerates(hs: seq<Header>, headers: map<string, string>) {
    && Agrees(hs, headers)
    && (forall k | k in headers :: Written(hs, k))
    && (forall i, j | 0 <= i < j < |hs| :: hs[i].0 != hs[j].0)
  }

  lemma {:induction false} HeaderMapKeys(hs: seq<Header>, headers: map<string, string>, k: string)
    requires Agrees(hs, headers)
    ensures k in HeaderMap(HeaderMembers(hs)) <==> Written(hs, k)
    ensures k in HeaderMap(HeaderMembers(hs)) ==> k in headers && HeaderMap(HeaderMembers(hs))[k] == headers[k]
  {
    if hs != [] {
      var n := |hs| - 1;
      assert HeaderMembers(hs)[..n] == HeaderMembers(hs[..n]);
      HeaderMapKeys(hs[..n], headers, k);
      assert hs[n].0 == k ==> Written(hs, k);
      if Written(hs[..n], k) { var i :| 0 <= i < n && hs[..n][i].0 == k; assert hs[i].0 == k; }
      if Written(hs, k) && hs[n].0 != k { var i :| 0 <= i <= n && hs[i].0 == k; assert hs[..n][i].0 == k; }
    }
  }

  lemma HeadersSurvive(hs: seq<Header>, headers: map<string, string>)
    requires Enumerates(hs, headers)
    ensures HeaderMap(HeaderMembers(hs)) == headers
  {
    forall k ensures k in HeaderMap(HeaderMembers(hs)) <==> k in headers {
      HeaderMapKeys(hs, headers, k);
      if Written(hs, k) { var i :| 0 <= i < |hs| && hs[i].0 == k; }
    }
    forall k | k in headers ensures HeaderMap(HeaderMembers(hs))[k] == headers[k] { HeaderMapKeys(hs, headers, k); }
  }

  function TextMember(field: Field, t: string): seq<Member> { if t == "" then [] else [Member(Name(field), Str(t))] }

  function HeadersMember(headers: map<string, string>, hs: seq<Header>): seq<Member> {
    if headers == map[] then [] else [Member(Name(Headers), Obj(HeaderMembers(hs)))]
  }

  function NumberMember(n: nat): seq<Member> { if n == 0 then [] else [Member(Name(Number), Num(n))] }

  function FrameMembers(f: Frame, hs: seq<Header>): seq<Member> {
    [Member(Name(Kind), Str(f.kind))] + TextMember(Subject, f.subject) + TextMember(Time, f.time)
        + TextMember(Data, f.data)
    + HeadersMember(f.headers, hs) + TextMember(Error, f.error) + NumberMember(f.number)
  }

  lemma {:induction false} SetFieldsConcat(f: Frame, a: seq<Member>, b: seq<Member>)
    ensures SetFields(f, a + b) == SetFields(SetFields(f, a), b)
  {
    if b == [] {
      assert a + b == a;
    } else {
      var n := |b| - 1;
      assert (a + b)[..|a + b| - 1] == a + b[..n];
      SetFieldsConcat(f, a, b[..n]);
    }
  }

  lemma SetOne(f: Frame, m: Member)
    ensures SetFields(f, [m]) == SetField(f, m)
  {
    assert [m][..0] == [];
  }

  lemma SetText(f: Frame, field: Field, t: string)
    requires field in {Subject, Time, Data, Error} && SetField(f, Member(Name(field), Str(""))) == f
    ensures SetFields(f, TextMember(field, t)) == SetField(f, Member(Name(field), Str(t)))
  {
    SetOne(f, Member(Name(field), Str(t)));
  }

  // The printed members carry the whole frame.
  lemma MembersCarryFrame(f: Frame, hs: seq<Header>)
    requires Enumerates(hs, f.headers)
    ensures SetFields(BLANK, FrameMembers(f, hs)) == f
  {
    var m0 := [Member(Name(Kind), Str(f.kind))];
    var f0 := BLANK.(kind := f.kind);
    var f1 := f0.(subject := f.subject);
    var f2 := f1.(time := f.time);
    var f3 := f2.(data := f.data);
    var f4 := f3.(headers := f.headers);
    var f5 := f4.(error := f.error);
    var m1 := m0 + TextMember(Subject, f.subject);
    var m2 := m1 + TextMember(Time, f.time);
    var m3 := m2 + TextMember(Data, f.data);
    var m4 := m3 + HeadersMember(f.headers, hs);
    var m5 := m4 + TextMember(Error, f.error);
    assert SetFields(BLANK, m0) == f0 by { FieldOfName(Kind); SetOne(BLANK, m0[0]); }
    assert SetFields(BLANK, m1) == f1 by {
      FieldOfName(Subject);
      SetFieldsConcat(BLANK, m0, TextMember(Subject, f.subject));
      SetText(f0, Subject, f.subject);
    }
    assert SetFields(BLANK, m2) == f2 by {
      FieldOfName(Time);
      SetFieldsConcat(BLANK, m1, TextMember(Time, f.time));
      SetText(f1, Time, f.time);
    }
    assert SetFields(BLANK, m3) == f3 by {
      FieldOfName(Data);
      SetFieldsConcat(BLANK, m2, TextMember(Data, f.data));
      SetText(f2, Data, f.data);
    }
    assert SetFields(BLANK, m4) == f4 by {
      SetFieldsConcat(BLANK, m3, HeadersMember(f.headers, hs));
      SetHeaders(f3, f.headers, hs);
    }
    assert SetFields(BLANK, m5) == f5 by {
      FieldOfName(Error);
      SetFieldsConcat(BLANK, m4, TextMember(Error, f.error));
      SetText(f4, Error, f.error);
    }
    SetFieldsConcat(BLANK, m5, NumberMember(f.number));
    SetNumber(f5, f.number);
  }

  lemma SetHeaders(f: Frame, headers: map<string, string>, hs: seq<Header>)
    requires Enumerates(hs, headers) && f.headers == map[]
    ensures SetFields(f, HeadersMember(headers, hs)) == f.(headers := headers)
  {
    FieldOfName(Headers);
    HeadersSurvive(hs, headers);
    SetOne(f, Member(Name(Headers), Obj(HeaderMembers(hs))));
  }

  lemma SetNumber(f: Frame, n: nat)
    requires f.number == 0
    ensures SetFields(f, NumberMember(n)) == f.(number := n)
  {
    FieldOfName(Number);
    SetOne(f, Member(Name(Number), Num(n)));
  }

  lemma ObjectReadsBack(ms: seq<Member>)
    ensures ReadFrame(PrintValue(Obj(ms))) == Got(SetFields(BLANK, ms), "")
  {
    ValueReadsBack(Obj(ms), "");
    assert PrintValue(Obj(ms)) + "" == PrintValue(Obj(ms));
  }

  // Reading back the printed frame gives the frame, for every order of its headers.
  lemma FrameReadsBack(f: Frame, hs: seq<Header>)
    requires Enumerates(hs, f.headers)
    ensures ReadFrame(PrintValue(Obj(FrameMembers(f, hs)))) == Got(f, "")
  {
    ObjectReadsBack(FrameMembers(f, hs));
    MembersCarryFrame(f, hs);
  }

  /* ---- the printer ---- */

  // The text of an object that is still missing its closing brace.
  function Open(ms: seq<Member>): string { ['{'] + PrintMembers(ms) }

  lemma {:induction false} PrintSnoc(ms: seq<Member>, m: Member)
    ensures PrintMembers(ms + [m]) == PrintMembers(ms) + (if ms == [] then "" else [',']) + PrintMember(m)
  {
    if |ms| == 1 {
      assert (ms + [m])[1..] == [m];
    } else if |ms| > 1 {
      PrintSnoc(ms[1..], m);
      PrintCons(ms[0], ms[1..] + [m]);
      PrintCons(ms[0], ms[1..]);
      Regroup(PrintMember(ms[0]), [','], PrintMembers(ms[1..]), [','], PrintMember(m));
      assert ms == [ms[0]] + ms[1..] && ms + [m] == [ms[0]] + (ms[1..] + [m]);
    }
  }

  lemma PrintCons(m: Member, ms: seq<Member>)
    requires ms != []
    ensures PrintMembers([m] + ms) == PrintMember(m) + [','] + PrintMembers(ms)
  {
    assert ([m] + ms)[1..] == ms;
  }

  lemma OpenSnoc(ms: seq<Member>, m: Member)
    ensures Open(ms + [m]) == Open(ms) + (if ms == [] then "" else [',']) + Quote(m.key) + [':'] + PrintValue(m.value)
  {
    PrintSnoc(ms, m);
  }

  lemma OpenHeaders(head: string, hs: seq<Header>, k: string, v: string)
    ensures head + Open(HeaderMembers(hs + [(k, v)]))
         == head + Open(HeaderMembers(hs)) + (if hs == [] then "" else [',']) + Quote(k) + [':'] + Quote(v)
  {
    OpenSnoc(HeaderMembers(hs), Member(k, Str(v)));
    assert HeaderMembers(hs + [(k, v)]) == HeaderMembers(hs) + [Member(k, Str(v))];
  }

  method AppendHeader(dst0: string, first: bool, k: string, v: string, wide: string -> (int, nat), ghost head: string,
                      ghost hs: seq<Header>)
    returns (dst: string)
    requires first == (hs == []) && dst0 == head + Open(HeaderMembers(hs))
    ensures dst == head + Open(HeaderMembers(hs + [(k, v)]))
  {
    OpenHeaders(head, hs, k, v);
    dst := dst0 + if first then "" else [','];
    dst := AppendJSONString(dst, k, wide);
    dst := dst + [':'];
    dst := AppendJSONString(dst, v, wide);
  }

  // dst is dst0 and then the object with the headers in this order.
  ghost predicate HeadersText(hs: seq<Header>, headers: map<string, string>, dst0: string, dst: string) {
    Enumerates(hs, headers) && dst == dst0 + PrintValue(Obj(HeaderMembers(hs)))
  }

  method AppendJSONHeaders(dst0: string, headers: map<string, string>, wide: string -> (int, nat)) returns (dst: string)
    ensures exists hs :: HeadersText(hs, headers, dst0, dst)
  {
    dst := dst0 + ['{'];
    ghost var hs := [];
    var first := true;
    var todo := headers.Keys;
    while todo != {}
      invariant todo <= headers.Keys && first == (hs == [])
      invariant Enumerates(hs, map k | k in headers && k !in todo :: headers[k])
      invariant dst == dst0 + Open(HeaderMembers(hs))
      decreases |todo|
    {
      var k :| k in todo;
      EnumeratesOneMore(hs, headers, todo, k);
      dst := AppendHeader(dst, first, k, headers[k], wide, dst0, hs);
      first := false;
      hs := hs + [(k, headers[k])];
      todo := todo - {k};
    }
    assert (map k | k in headers && k !in todo :: headers[k]) == headers;
    CloseObject(dst0, HeaderMembers(hs));
    dst := dst + ['}'];
    assert HeadersText(hs, headers, dst0, dst);
  }

  lemma CloseObject(head: string, ms: seq<Member>)
    ensures head + Open(ms) + ['}'] == head + PrintValue(Obj(ms))
  {}

  lemma EnumeratesOneMore(hs: seq<Header>, headers: map<string, string>, todo: set<string>, k: string)
    requires k in todo && k in headers
    requires Enumerates(hs, map j | j in headers && j !in todo :: headers[j])
    ensures Enumerates(hs + [(k, headers[k])], map j | j in headers && j !in todo - {k} :: headers[j])
  {
    var more := hs + [(k, headers[k])];
    forall j | j in headers && j !in todo - {k} ensures Written(more, j) {
      if j == k {
        assert more[|hs|].0 == k;
      } else {
        assert Written(hs, j);
        var i :| 0 <= i < |hs| && hs[i].0 == j;
        assert more[i].0 == j;
      }
    }
  }

  // The first value of every header that has one.
  function FirstValues(headers: map<string, seq<string>>): map<string, string> {
    map k | k in headers && headers[k] != [] :: headers[k][0]
  }

  lemma FirstValuesExactly(headers: map<string, seq<string>>, k: string, v: string)
    ensures (k, v) in FirstValues(headers).Items <==> k in headers && [v] <= headers[k]
  {
    if k in headers && [v] <= headers[k] { assert headers[k][0] == [v][0]; }
  }

  method AppendJSONNATSHeaders(dst0: string, headers: map<string, seq<string>>, wide: string -> (int, nat))
      returns (dst: string)
    ensures exists hs :: HeadersText(hs, FirstValues(headers), dst0, dst)
  {
    dst := dst0 + ['{'];
    ghost var hs := [];
    var first := true;
    var todo := headers.Keys;
    ghost var kept := FirstValues(headers);
    while todo != {}
      invariant todo <= headers.Keys && first == (hs == [])
      invariant Enumerates(hs, map k | k in kept && k !in todo :: kept[k])
      invariant dst == dst0 + Open(HeaderMembers(hs))
      decreases |todo|
    {
      var k :| k in todo;
      if headers[k] == [] {
        assert (map j | j in kept && j !in todo - {k} :: kept[j]) == map j | j in kept && j !in todo :: kept[j];
        todo := todo - {k};
        continue;
      }
      EnumeratesOneMore(hs, kept, todo, k);
      dst := AppendHeader(dst, first, k, headers[k][0], wide, dst0, hs);
      first := false;
      hs := hs + [(k, headers[k][0])];
      todo := todo - {k};
    }
    assert (map k | k in kept && k !in todo :: kept[k]) == kept;
    CloseObject(dst0, HeaderMembers(hs));
    dst := dst + ['}'];
    assert HeadersText(hs, kept, dst0, dst);
  }

  lemma AroundKey(key: string)
    ensures [','] + (['"'] + key + ['"']) + [':'] == [',', '"'] + key + ['"', ':']
  {}

  lemma KeyText(key: string)
    requires Plain(key)
    ensures [','] + Quote(key) + [':'] == [',', '"'] + key + ['"', ':']
  {
    EscapePlain(key);
    AroundKey(key);
  }

  lemma OpenMore(ms: seq<Member>, key: string, v: Value)
    requires ms != [] && Plain(key)
    ensures Open(ms + [Member(key, v)]) == Open(ms) + ([',', '"'] + key + ['"', ':']) + PrintValue(v)
  {
    OpenSnoc(ms, Member(key, v));
    KeyText(key);
    Regroup(Open(ms), [','], Quote(key), [':'], PrintValue(v));
    assert Open(ms) + ([','] + Quote(key) + [':']) + PrintValue(v)
        == Open(ms) + ([','] + (Quote(key) + [':'] + PrintValue(v)));
  }

  // A text field is left out when it is empty.
  method AppendTextField(dst0: string, field: Field, t: string, wide: string -> (int, nat), ghost ms: seq<Member>)
    returns (dst: string)
    requires ms != [] && dst0 == Open(ms)
    ensures dst == Open(ms + TextMember(field, t))
  {
    dst := dst0;
    assert ms + [] == ms;
    if t != "" { dst := AppendText(dst, field, t, wide, ms); }
  }

  method AppendHeadersField(dst0: string, headers: map<string, string>, wide: string -> (int, nat),
                            ghost ms: seq<Member>)
    returns (dst: string, ghost hs: seq<Header>)
    requires ms != [] && dst0 == Open(ms)
    ensures Enumerates(hs, headers) && dst == Open(ms + HeadersMember(headers, hs))
  {
    dst, hs := dst0, [];
    assert ms + [] == ms;
    if |headers| > 0 {
      var key := dst + ([',', '"'] + Name(Headers) + ['"', ':']);
      dst := AppendJSONHeaders(key, headers, wide);
      hs :| HeadersText(hs, headers, key, dst);
      OpenMore(ms, Name(Headers), Obj(HeaderMembers(hs)));
    }
  }

  method AppendNumberField(dst0: string, n: nat, ghost ms: seq<Member>) returns (dst: string)
    requires ms != [] && dst0 == Open(ms)
    ensures dst == Open(ms + NumberMember(n))
  {
    dst := dst0;
    assert ms + [] == ms;
    if n != 0 { dst := AppendNumber(dst, n, ms); }
  }

  lemma FirstText(key: string, text: string)
    ensures ['{'] + (['"'] + key + ['"'] + [':'] + text) == ['{', '"'] + key + ['"', ':'] + text
  {}

  lemma OpenFirst(v: Value)
    ensures Open([Member(Name(Kind), v)]) == ['{', '"'] + Name(Kind) + ['"', ':'] + PrintValue(v)
  {
    var key := Name(Kind);
    EscapePlain(key);
    FirstText(key, PrintValue(v));
    assert PrintMembers([Member(key, v)]) == PrintMember(Member(key, v));
  }

  // What is printed reads back as the frame it was printed from.
  method EncodeLiveFrame(f: Frame, wide: string -> (int, nat)) returns (buf: string)
    ensures ReadFrame(buf) == Got(f, "")
    ensures exists hs :: Enumerates(hs, f.headers) && buf == PrintValue(Obj(FrameMembers(f, hs)))
  {
    OpenFirst(Str(f.kind));
    buf := ['{', '"'] + Name(Kind) + ['"', ':'];
    buf := AppendJSONString(buf, f.kind, wide);
    ghost var ms := [Member(Name(Kind), Str(f.kind))];
    buf := AppendTextField(buf, Subject, f.subject, wide, ms);
    ms := ms + TextMember(Subject, f.subject);
    buf := AppendTextField(buf, Time, f.time, wide, ms);
    ms := ms + TextMember(Time, f.time);
    buf := AppendTextField(buf, Data, f.data, wide, ms);
    ms := ms + TextMember(Data, f.data);
    ghost var hs;
    buf, hs := AppendHeadersField(buf, f.headers, wide, ms);
    ms := ms + HeadersMember(f.headers, hs);
    buf := AppendTextField(buf, Error, f.error, wide, ms);
    ms := ms + TextMember(Error, f.error);
    buf := AppendNumberField(buf, f.number, ms);
    ms := ms + NumberMember(f.number);
    assert ms == FrameMembers(f, hs);
    buf := buf + ['}'];
    assert buf == PrintValue(Obj(ms));
    FrameReadsBack(f, hs);
  }

  /* ---- message frames ---- */

  // The frame the multiplexer sends for one message. The number comes second, and subject, time and data
  // are present even when empty.
  function MessageFrame(number: nat, subject: string, time: string, data: string,
                        headers: map<string, seq<string>>): Frame {
    Frame("message", subject, time, data, FirstValues(headers), "", number)
  }

  function MessageMembers(number: nat, subject: string, time: string, data: string): seq<Member> {
    [Member(Name(Kind), Str("message"))] + [Member(Name(Number), Num(number))] + [Member(Name(Subject), Str(subject))]
    + [Member(Name(Time), Str(time))] + [Member(Name(Data), Str(data))]
  }

  lemma SetSnoc(f: Frame, ms: seq<Member>, m: Member)
    ensures SetFields(f, ms + [m]) == SetField(SetFields(f, ms), m)
  {
    assert (ms + [m])[..|ms|] == ms;
  }

  lemma MessageMembersCarry(number: nat, subject: string, time: string, data: string)
    ensures SetFields(BLANK, MessageMembers(number, subject, time, data))
            == Frame("message", subject, time, data, map[], "", number)
  {
    var m0 := [Member(Name(Kind), Str("message"))];
    var m1 := m0 + [Member(Name(Number), Num(number))];
    var m2 := m1 + [Member(Name(Subject), Str(subject))];
    var m3 := m2 + [Member(Name(Time), Str(time))];
    assert SetFields(BLANK, m0) == BLANK.(kind := "message") by { FieldOfName(Kind); SetOne(BLANK, m0[0]); }
    assert SetFields(BLANK, m1) == BLANK.(kind := "message", number := number)
      by { FieldOfName(Number); SetSnoc(BLANK, m0, Member(Name(Number), Num(number))); }
    assert SetFields(BLANK, m2) == BLANK.(kind := "message", number := number, subject := subject)
      by { FieldOfName(Subject); SetSnoc(BLANK, m1, Member(Name(Subject), Str(subject))); }
    assert SetFields(BLANK, m3) == BLANK.(kind := "message", number := number, subject := subject, time := time)
      by { FieldOfName(Time); SetSnoc(BLANK, m2, Member(Name(Time), Str(time))); }
    FieldOfName(Data);
    SetSnoc(BLANK, m3, Member(Name(Data), Str(data)));
  }

  // The object member for NATS headers is printed even when no header has a value.
  function NATSHeadersMember(headers: map<string, seq<string>>, hs: seq<Header>): seq<Member> {
    if headers == map[] then [] else [Member(Name(Headers), Obj(HeaderMembers(hs)))]
  }

  lemma SetNATSHeaders(f: Frame, headers: map<string, seq<string>>, hs: seq<Header>)
    requires Enumerates(hs, FirstValues(headers)) && f.headers == map[]
    ensures SetFields(f, NATSHeadersMember(headers, hs)) == f.(headers := FirstValues(headers))
  {
    FieldOfName(Headers);
    HeadersSurvive(hs, FirstValues(headers));
    SetOne(f, Member(Name(Headers), Obj(HeaderMembers(hs))));
    if headers == map[] { assert FirstValues(headers) == map[]; }
  }

  // Text without anything to escape, put between literal quotation marks.
  method AppendPlainField(dst0: string, field: Field, t: string, ghost ms: seq<Member>) returns (dst: string)
    requires ms != [] && dst0 == Open(ms) && Plain(t)
    ensures dst == Open(ms + [Member(Name(field), Str(t))])
  {
    OpenMore(ms, Name(field), Str(t));
    EscapePlain(t);
    dst := dst0 + ([',', '"'] + Name(field) + ['"', ':']);
    dst := dst + (['"'] + t + ['"']);
  }

  method AppendNATSHeadersField(dst0: string, headers: map<string, seq<string>>, wide: string -> (int, nat),
                                ghost ms: seq<Member>)
    returns (dst: string, ghost hs: seq<Header>)
    requires ms != [] && dst0 == Open(ms)
    ensures Enumerates(hs, FirstValues(headers)) && dst == Open(ms + NATSHeadersMember(headers, hs))
  {
    dst, hs := dst0, [];
    assert ms + [] == ms;
    if |headers| > 0 {
      var key := dst + ([',', '"'] + Name(Headers) + ['"', ':']);
      dst := AppendJSONNATSHeaders(key, headers, wide);
      hs :| HeadersText(hs, FirstValues(headers), key, dst);
      OpenMore(ms, Name(Headers), Obj(HeaderMembers(hs)));
    }
  }

  lemma MessageReadsBack(number: nat, subject: string, time: string, data: string, headers: map<string, seq<string>>,
                         hs: seq<Header>)
    requires Enumerates(hs, FirstValues(headers))
    ensures ReadFrame(PrintValue(Obj(MessageMembers(number, subject, time, data) + NATSHeadersMember(headers, hs))))
         == Got(MessageFrame(number, subject, time, data, headers), "")
  {
    var ms := MessageMembers(number, subject, time, data);
    ObjectReadsBack(ms + NATSHeadersMember(headers, hs));
    SetFieldsConcat(BLANK, ms, NATSHeadersMember(headers, hs));
    MessageMembersCarry(number, subject, time, data);
    SetNATSHeaders(SetFields(BLANK, ms), headers, hs);
  }

  lemma OpenMessage(kind: string)
    requires Plain(kind)
    ensures Open([Member(Name(Kind), Str(kind))]) == ['{', '"'] + Name(Kind) + ['"', ':'] + (['"'] + kind + ['"'])
  {
    EscapePlain(kind);
    OpenFirst(Str(kind));
  }

  method AppendNumber(dst0: string, n: nat, ghost ms: seq<Member>) returns (dst: string)
    requires ms != [] && dst0 == Open(ms)
    ensures dst == Open(ms + [Member(Name(Number), Num(n))])
  {
    OpenMore(ms, Name(Number), Num(n));
    dst := dst0 + ([',', '"'] + Name(Number) + ['"', ':']);
    dst := dst + Decimal(n);
  }

  method AppendText(dst0: string, field: Field, t: string, wide: string -> (int, nat), ghost ms: seq<Member>)
      returns (dst: string)
    requires ms != [] && dst0 == Open(ms)
    ensures dst == Open(ms + [Member(Name(field), Str(t))])
  {
    OpenMore(ms, Name(field), Str(t));
    dst := dst0 + ([',', '"'] + Name(field) + ['"', ':']);
    dst := AppendJSONString(dst, t, wide);
  }

  method BeginMessageFrame(number: nat, subject: string, wide: string -> (int, nat)) returns (buf: string)
    ensures buf == Open([Member(Name(Kind), Str("message"))] + [Member(Name(Number), Num(number))]
                        + [Member(Name(Subject), Str(subject))])
  {
    OpenMessage("message");
    buf := ['{', '"'] + Name(Kind) + ['"', ':'] + (['"'] + "message" + ['"']);
    ghost var ms := [Member(Name(Kind), Str("message"))];
    buf := AppendNumber(buf, number, ms);
    buf := AppendText(buf, Subject, subject, wide, ms + [Member(Name(Number), Num(number))]);
  }

  // The time stamp and the base64 text come from alphabets without a character to escape.
  method EncodeMessageFrameFromNATS(number: nat, subject: string, time: string, data: string,
                                    headers: map<string, seq<string>>,
                                    wide: string -> (int, nat))
    returns (buf: string)
    requires Plain(time) && Plain(data)
    ensures ReadFrame(buf) == Got(MessageFrame(number, subject, time, data, headers), "")
    ensures exists hs :: Enumerates(hs, FirstValues(headers))
                         && buf == PrintValue(Obj(MessageMembers(number, subject, time, data)
                                                  + NATSHeadersMember(headers, hs)))
  {
    buf := BeginMessageFrame(number, subject, wide);
    ghost var ms := [Member(Name(Kind), Str("message"))] + [Member(Name(Number), Num(number))]
        + [Member(Name(Subject), Str(subject))];
    buf := AppendPlainField(buf, Time, time, ms);
    ms := ms + [Member(Name(Time), Str(time))];
    buf := AppendPlainField(buf, Data, data, ms);
    ms := ms + [Member(Name(Data), Str(data))];
    ghost var hs;
    buf, hs := AppendNATSHeadersField(buf, headers, wide, ms);
    buf := buf + ['}'];
    MessageReadsBack(number, subject, time, data, headers, hs);
  }
}
