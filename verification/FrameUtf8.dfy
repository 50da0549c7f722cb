/** Which frames go out as UTF-8: the printer copies every byte above 0x7F as it is. */
module FrameUtf8 {
  import opened FrameJson
  import opened Text

  /* ---- UTF-8, by the syntax in section 4 of RFC 3629 ---- */

  predicate ByteIn(s: string, i: nat, lo: int, hi: int) { i < |s| && lo <= s[i] as int <= hi }

  predicate StartsThree(s: string) {
    || (ByteIn(s, 0, 0xE0, 0xE0) && ByteIn(s, 1, 0xA0, 0xBF))
    || (ByteIn(s, 0, 0xE1, 0xEC) && ByteIn(s, 1, 0x80, 0xBF))
    || (ByteIn(s, 0, 0xED, 0xED) && ByteIn(s, 1, 0x80, 0x9F))
    || (ByteIn(s, 0, 0xEE, 0xEF) && ByteIn(s, 1, 0x80, 0xBF))
  }

  predicate StartsFour(s: string) {
    || (ByteIn(s, 0, 0xF0, 0xF0) && ByteIn(s, 1, 0x90, 0xBF))
    || (ByteIn(s, 0, 0xF1, 0xF3) && ByteIn(s, 1, 0x80, 0xBF))
    || (ByteIn(s, 0, 0xF4, 0xF4) && ByteIn(s, 1, 0x80, 0x8F))
  }

  // How many bytes the first character of s takes, or 0 when s does not start with one.
  function CharLength(s: string): (n: nat)
    ensures n <= |s| && (n > 1 ==> forall i | 0 <= i < n :: High(s[i]))
  {
    if ByteIn(s, 0, 0, 0x7F) then 1
    else if ByteIn(s, 0, 0xC2, 0xDF) && ByteIn(s, 1, 0x80, 0xBF) then 2
    else if StartsThree(s) && ByteIn(s, 2, 0x80, 0xBF) then 3
    else if StartsFour(s) && ByteIn(s, 2, 0x80, 0xBF) && ByteIn(s, 3, 0x80, 0xBF) then 4
    else 0
  }

  predicate IsUtf8(s: string)
    decreases |s|
  {
    s == "" || (CharLength(s) > 0 && IsUtf8(s[CharLength(s)..]))
  }

  predicate High(c: char) { c as int >= 0x80 }

  predicate Ascii(s: string) { forall i | 0 <= i < |s| :: !High(s[i]) }

  lemma {:induction false} AsciiPrefix(a: string, rest: string)
    requires Ascii(a)
    ensures IsUtf8(a + rest) <==> IsUtf8(rest)
  {
    if a == "" {
      assert a + rest == rest;
    } else {
      assert (a + rest)[1..] == a[1..] + rest;
      AsciiPrefix(a[1..], rest);
    }
  }

  lemma AsciiIsUtf8(a: string)
    requires Ascii(a)
    ensures IsUtf8(a)
  {
    AsciiPrefix(a, "");
    assert a + "" == a;
  }

  // The leading bytes above 0x7F.
  function HighRun(s: string): (h: nat)
    ensures h <= |s| && (forall i | 0 <= i < h :: High(s[i])) && (h < |s| ==> !High(s[h]))
  {
    if s == "" || !High(s[0]) then 0 else 1 + HighRun(s[1..])
  }

  // The length of a longer character depends on the leading run alone.
  lemma SameLength(s: string, t: string)
    requires HighRun(s) == HighRun(t) > 0 && s[..HighRun(s)] == t[..HighRun(s)]
    ensures CharLength(s) == CharLength(t)
  {
    var h := HighRun(s);
    forall i: nat | i < h ensures s[i] == t[i] { assert s[..h][i] == t[..h][i]; }
  }

  /* ---- printed strings ---- */

  lemma EscapeIsAscii(c: char)
    requires !High(c)
    ensures Ascii(Escape(c)) && Escape(c) != ""
  {}

  // Bytes above 0x7F at the front are copied.
  lemma HighPrefix(a: string, b: string)
    requires forall i | 0 <= i < |a| :: High(a[i])
    ensures EscapeAll(a + b) == a + EscapeAll(b)
  {
    assert Plain(a);
    EscapePlain(a);
    EscapeConcat(a, b);
  }

  lemma Halves(s: string, n: nat)
    requires n <= |s|
    ensures s[..n] + s[n..] == s
  {}

  lemma HighIsCopied(s: string, n: nat, rest: string)
    requires n <= |s| && forall i | 0 <= i < n :: High(s[i])
    ensures EscapeAll(s) + rest == s[..n] + (EscapeAll(s[n..]) + rest)
  {
    var a, b := s[..n], s[n..];
    Halves(s, n);
    HighPrefix(a, b);
    Regroup(a, EscapeAll(b), rest);
  }

  lemma Regroup(a: string, b: string, c: string)
    ensures a + b + c == a + (b + c)
  {}

  lemma RegroupFour(a: string, b: string, c: string, d: string)
    ensures a + b + c + d == a + (b + (c + d))
  {}

  lemma RunOf(a: string, b: string)
    requires (forall i | 0 <= i < |a| :: High(a[i])) && b != "" && !High(b[0])
    ensures HighRun(a + b) == |a| && (a + b)[..|a|] == a
  {
    assert !High((a + b)[|a|]);
  }

  lemma StartsLow(s: string, rest: string)
    requires rest != "" && !High(rest[0]) && (s != "" ==> !High(s[0]))
    ensures EscapeAll(s) + rest != "" && !High((EscapeAll(s) + rest)[0])
  {
    if s != "" {
      EscapeHead(s);
      EscapeIsAscii(s[0]);
    }
  }

  lemma SameStart(s: string, rest: string)
    requires s != "" && High(s[0]) && rest != "" && !High(rest[0])
    ensures CharLength(EscapeAll(s) + rest) == CharLength(s)
  {
    var h := HighRun(s);
    HighIsCopied(s, h, rest);
    StartsLow(s[h..], rest);
    RunOf(s[..h], EscapeAll(s[h..]) + rest);
    SameLength(s, EscapeAll(s) + rest);
  }

  lemma {:induction false} CharsUtf8(s: string, rest: string)
    requires rest != "" && !High(rest[0])
    ensures IsUtf8(EscapeAll(s) + rest) <==> IsUtf8(s) && IsUtf8(rest)
    decreases |s|
  {
    if s == "" {
      assert EscapeAll(s) + rest == rest;
    } else if !High(s[0]) {
      EscapeHead(s);
      EscapeIsAscii(s[0]);
      assert EscapeAll(s) + rest == Escape(s[0]) + (EscapeAll(s[1..]) + rest);
      AsciiPrefix(Escape(s[0]), EscapeAll(s[1..]) + rest);
      CharsUtf8(s[1..], rest);
    } else {
      var n := CharLength(s);
      SameStart(s, rest);
      if n > 0 {
        HighIsCopied(s, n, rest);
        CharsUtf8(s[n..], rest);
      }
    }
  }

  // A printed string is UTF-8 exactly if the string is; no byte is repaired and none is spoiled.
  lemma QuoteUtf8(s: string, rest: string)
    ensures IsUtf8(Quote(s) + rest) <==> IsUtf8(s) && IsUtf8(rest)
  {
    var tail := ['"'] + rest;
    assert Quote(s) + rest == ['"'] + (EscapeAll(s) + tail);
    AsciiPrefix(['"'], EscapeAll(s) + tail);
    CharsUtf8(s, tail);
    AsciiPrefix(['"'], rest);
  }

  // One byte that RFC 3629 never uses goes out as it is.
  lemma BadByteGoesOut()
    ensures !IsUtf8([0xFF as char]) && !IsUtf8(Quote([0xFF as char]))
  {
    var s := [0xFF as char];
    QuoteUtf8(s, "");
    assert Quote(s) + "" == Quote(s);
  }

  /* ---- printed values ---- */

  predicate ValueUtf8(v: Value) {
    match v
    case Str(t) => IsUtf8(t)
    case Num(_) => true
    case Obj(ms) => forall i | 0 <= i < |ms| :: MemberUtf8(ms[i])
  }

  predicate MemberUtf8(m: Member) { IsUtf8(m.key) && ValueUtf8(m.value) }

  predicate MembersUtf8(ms: seq<Member>) { forall i | 0 <= i < |ms| :: MemberUtf8(ms[i]) }

  lemma OneMember(m: Member)
    ensures MembersUtf8([m]) <==> MemberUtf8(m)
  {
    if MembersUtf8([m]) { assert MemberUtf8([m][0]); }
  }

  lemma MembersConcat(a: seq<Member>, b: seq<Member>)
    ensures MembersUtf8(a + b) <==> MembersUtf8(a) && MembersUtf8(b)
  {
    if MembersUtf8(a + b) {
      forall i | 0 <= i < |a| ensures MemberUtf8(a[i]) { assert (a + b)[i] == a[i]; }
      forall i | 0 <= i < |b| ensures MemberUtf8(b[i]) { assert (a + b)[|a| + i] == b[i]; }
    }
  }

  // A printed value is UTF-8 exactly if every string in it is.
  lemma {:induction false} ValueUtf8Exactly(v: Value, rest: string)
    ensures IsUtf8(PrintValue(v) + rest) <==> ValueUtf8(v) && IsUtf8(rest)
    decreases v, 1
  {
    match v
    case Str(t) => QuoteUtf8(t, rest);
    case Num(n) => AsciiPrefix(Decimal(n), rest);
    case Obj(ms) =>
      var more := PrintMembers(ms) + (['}'] + rest);
      assert PrintValue(v) + rest == ['{'] + more;
      AsciiPrefix(['{'], more);
      MembersUtf8Exactly(ms, ['}'] + rest);
      AsciiPrefix(['}'], rest);
  }

  lemma {:induction false} MemberUtf8Exactly(m: Member, rest: string)
    ensures IsUtf8(PrintMember(m) + rest) <==> MemberUtf8(m) && IsUtf8(rest)
    decreases m, 2
  {
    var value := PrintValue(m.value) + rest;
    assert PrintMember(m) + rest == Quote(m.key) + ([':'] + value);
    QuoteUtf8(m.key, [':'] + value);
    AsciiPrefix([':'], value);
    ValueUtf8Exactly(m.value, rest);
  }

  lemma MoreText(ms: seq<Member>, rest: string)
    requires |ms| > 1
    ensures PrintMembers(ms) + rest == PrintMember(ms[0]) + ([','] + (PrintMembers(ms[1..]) + rest))
  {
    RegroupFour(PrintMember(ms[0]), [','], PrintMembers(ms[1..]), rest);
  }

  lemma MembersCons(ms: seq<Member>)
    requires ms != []
    ensures MembersUtf8(ms) <==> MemberUtf8(ms[0]) && MembersUtf8(ms[1..])
  {
    assert ms == [ms[0]] + ms[1..];
    MembersConcat([ms[0]], ms[1..]);
    OneMember(ms[0]);
  }

  lemma {:induction false} MembersUtf8Exactly(ms: seq<Member>, rest: string)
    ensures IsUtf8(PrintMembers(ms) + rest) <==> MembersUtf8(ms) && IsUtf8(rest)
    decreases ms, 0
  {
    if ms == [] {
      assert PrintMembers(ms) + rest == rest;
    } else if |ms| == 1 {
      MemberUtf8Exactly(ms[0], rest);
    } else {
      var more := PrintMembers(ms[1..]) + rest;
      MoreText(ms, rest);
      MemberUtf8Exactly(ms[0], [','] + more);
      AsciiPrefix([','], more);
      MembersUtf8Exactly(ms[1..], rest);
      MembersCons(ms);
    }
  }

  /* ---- frames ---- */

  predicate HeadersAreUtf8(headers: map<string, string>) {
    forall k | k in headers :: IsUtf8(k) && IsUtf8(headers[k])
  }

  predicate FrameIsUtf8(f: Frame) {
    && IsUtf8(f.kind) && IsUtf8(f.subject) && IsUtf8(f.time) && IsUtf8(f.data) && IsUtf8(f.error)
    && HeadersAreUtf8(f.headers)
  }

  lemma NameIsUtf8(field: Field)
    ensures IsUtf8(Name(field))
  {
    assert Ascii(Name(field));
    AsciiIsUtf8(Name(field));
  }

  lemma StrMemberUtf8(field: Field, t: string)
    ensures MembersUtf8([Member(Name(field), Str(t))]) <==> IsUtf8(t)
  {
    NameIsUtf8(field);
    OneMember(Member(Name(field), Str(t)));
  }

  lemma TextUtf8(field: Field, t: string)
    ensures MembersUtf8(TextMember(field, t)) <==> IsUtf8(t)
  {
    StrMemberUtf8(field, t);
    AsciiIsUtf8("");
  }

  lemma HeaderUtf8(headers: map<string, string>, hs: seq<Header>, i: nat)
    requires Agrees(hs, headers) && i < |hs|
    ensures hs[i].0 in headers
    ensures MemberUtf8(HeaderMembers(hs)[i]) <==> IsUtf8(hs[i].0) && IsUtf8(headers[hs[i].0])
  {
    assert ValueUtf8(Str(hs[i].1)) <==> IsUtf8(hs[i].1);
  }

  lemma HeaderMembersUtf8(headers: map<string, string>, hs: seq<Header>)
    requires Enumerates(hs, headers)
    ensures MembersUtf8(HeaderMembers(hs)) <==> HeadersAreUtf8(headers)
  {
    var ms := HeaderMembers(hs);
    if MembersUtf8(ms) {
      forall k | k in headers ensures IsUtf8(k) && IsUtf8(headers[k]) {
        assert Written(hs, k);
        var i :| 0 <= i < |hs| && hs[i].0 == k;
        assert MemberUtf8(ms[i]);
        HeaderUtf8(headers, hs, i);
      }
    }
    if HeadersAreUtf8(headers) {
      forall i | 0 <= i < |ms| ensures MemberUtf8(ms[i]) { HeaderUtf8(headers, hs, i); }
    }
  }

  lemma HeadersUtf8(headers: map<string, string>, hs: seq<Header>)
    requires Enumerates(hs, headers)
    ensures MembersUtf8(HeadersMember(headers, hs)) <==> HeadersAreUtf8(headers)
  {
    NameIsUtf8(Headers);
    HeaderMembersUtf8(headers, hs);
    ObjMemberUtf8(Name(Headers), HeaderMembers(hs));
  }

  lemma ObjMemberUtf8(key: string, ms: seq<Member>)
    requires IsUtf8(key)
    ensures MembersUtf8([Member(key, Obj(ms))]) <==> MembersUtf8(ms)
  {
    OneMember(Member(key, Obj(ms)));
  }

  // A printed frame is UTF-8 exactly if all its strings are, whatever the order of its headers.
  lemma FrameUtf8Exactly(f: Frame, hs: seq<Header>)
    requires Enumerates(hs, f.headers)
    ensures IsUtf8(PrintValue(Obj(FrameMembers(f, hs)))) <==> FrameIsUtf8(f)
  {
    var ms := FrameMembers(f, hs);
    ValueUtf8Exactly(Obj(ms), "");
    assert PrintValue(Obj(ms)) + "" == PrintValue(Obj(ms));
    FrameMembersUtf8(f, hs);
  }

  lemma FrameMembersUtf8(f: Frame, hs: seq<Header>)
    requires Enumerates(hs, f.headers)
    ensures MembersUtf8(FrameMembers(f, hs)) <==> FrameIsUtf8(f)
  {
    var m0 := [Member(Name(Kind), Str(f.kind))];
    var m1 := m0 + TextMember(Subject, f.subject);
    var m2 := m1 + TextMember(Time, f.time);
    var m3 := m2 + TextMember(Data, f.data);
    var m4 := m3 + HeadersMember(f.headers, hs);
    var m5 := m4 + TextMember(Error, f.error);
    StrMemberUtf8(Kind, f.kind);
    MembersConcat(m0, TextMember(Subject, f.subject));
    MembersConcat(m1, TextMember(Time, f.time));
    MembersConcat(m2, TextMember(Data, f.data));
    MembersConcat(m3, HeadersMember(f.headers, hs));
    MembersConcat(m4, TextMember(Error, f.error));
    MembersConcat(m5, NumberMember(f.number));
    TextUtf8(Subject, f.subject);
    TextUtf8(Time, f.time);
    TextUtf8(Data, f.data);
    TextUtf8(Error, f.error);
    HeadersUtf8(f.headers, hs);
    NameIsUtf8(Number);
    assert MembersUtf8(NumberMember(f.number));
  }

  // The same for message frames, whose headers keep their first values.
  lemma MessageUtf8Exactly(number: nat, subject: string, time: string, data: string, headers: map<string, seq<string>>,
                           hs: seq<Header>)
    requires Enumerates(hs, FirstValues(headers))
    ensures IsUtf8(PrintValue(Obj(MessageMembers(number, subject, time, data) + NATSHeadersMember(headers, hs))))
       <==> IsUtf8(subject) && IsUtf8(time) && IsUtf8(data) && HeadersAreUtf8(FirstValues(headers))
  {
    var ms, more := MessageMembers(number, subject, time, data), NATSHeadersMember(headers, hs);
    ValueUtf8Exactly(Obj(ms + more), "");
    assert PrintValue(Obj(ms + more)) + "" == PrintValue(Obj(ms + more));
    MembersConcat(ms, more);
    MessageMembersUtf8(number, subject, time, data);
    NATSHeadersUtf8(headers, hs);
  }

  lemma NATSHeadersUtf8(headers: map<string, seq<string>>, hs: seq<Header>)
    requires Enumerates(hs, FirstValues(headers))
    ensures MembersUtf8(NATSHeadersMember(headers, hs)) <==> HeadersAreUtf8(FirstValues(headers))
  {
    if headers == map[] { assert FirstValues(headers) == map[]; }
    NameIsUtf8(Headers);
    HeaderMembersUtf8(FirstValues(headers), hs);
    ObjMemberUtf8(Name(Headers), HeaderMembers(hs));
  }

  lemma MembersSnoc(ms: seq<Member>, m: Member)
    ensures MembersUtf8(ms + [m]) <==> MembersUtf8(ms) && MemberUtf8(m)
  {
    MembersConcat(ms, [m]);
    OneMember(m);
  }

  lemma FiveMembers(a: Member, b: Member, c: Member, d: Member, e: Member)
    ensures MembersUtf8([a] + [b] + [c] + [d] + [e])
       <==> MemberUtf8(a) && MemberUtf8(b) && MemberUtf8(c) && MemberUtf8(d) && MemberUtf8(e)
  {
    OneMember(a);
    MembersSnoc([a], b);
    MembersSnoc([a] + [b], c);
    MembersSnoc([a] + [b] + [c], d);
    MembersSnoc([a] + [b] + [c] + [d], e);
  }

  lemma FieldUtf8(field: Field, v: Value)
    ensures MemberUtf8(Member(Name(field), v)) <==> ValueUtf8(v)
  {
    NameIsUtf8(field);
  }

  // The field names and the type are variables here, so that nothing computes with them.
  lemma FiveFields(fields: seq<Field>, kind: string, number: nat, subject: string, time: string, data: string)
    requires |fields| == 5 && Ascii(kind)
    ensures MembersUtf8([Member(Name(fields[0]), Str(kind))] + [Member(Name(fields[1]), Num(number))]
                        + [Member(Name(fields[2]), Str(subject))] + [Member(Name(fields[3]), Str(time))]
                        + [Member(Name(fields[4]), Str(data))])
       <==> IsUtf8(subject) && IsUtf8(time) && IsUtf8(data)
  {
    FiveMembers(Member(Name(fields[0]), Str(kind)), Member(Name(fields[1]), Num(number)),
                Member(Name(fields[2]), Str(subject)), Member(Name(fields[3]), Str(time)),
                Member(Name(fields[4]), Str(data)));
    AsciiIsUtf8(kind);
    FieldUtf8(fields[0], Str(kind));
    FieldUtf8(fields[1], Num(number));
    FieldUtf8(fields[2], Str(subject));
    FieldUtf8(fields[3], Str(time));
    FieldUtf8(fields[4], Str(data));
  }

  lemma MessageMembersUtf8(number: nat, subject: string, time: string, data: string)
    ensures MembersUtf8(MessageMembers(number, subject, time, data))
       <==> IsUtf8(subject) && IsUtf8(time) && IsUtf8(data)
  {
    FiveFields([Kind, Number, Subject, Time, Data], "message", number, subject, time, data);
  }
}
