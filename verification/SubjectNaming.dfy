/**
 Subject normalisation and the two clustering keys built on it: the naming fingerprint and the event
 genome key.
 */
module SubjectNaming {
  import opened Text

  /* ---- splitting at separators ---- */

  predicate IsSeparator(c: char) { c == '.' || c == '_' || c == '-' }

  function Dotted(s: string): (r: string)
    ensures |r| == |s| && forall i | 0 <= i < |s| :: r[i] == if IsSeparator(s[i]) then '.' else s[i]
  {
    seq(|s|, i requires 0 <= i < |s| => if IsSeparator(s[i]) then '.' else s[i])
  }

  function NonEmpty(parts: seq<string>): seq<string> {
    if parts == [] then []
    else NonEmpty(parts[..|parts| - 1]) + if parts[|parts| - 1] == "" then [] else [parts[|parts| - 1]]
  }

  function SplitSeparators(s: string): seq<string> { NonEmpty(Split(Dotted(s), '.')) }

  lemma {:induction false} NonEmptyMembers(parts: seq<string>, t: string)
    ensures t in NonEmpty(parts) <==> t in parts && t != ""
  {
    if parts != [] {
      NonEmptyMembers(parts[..|parts| - 1], t);
      assert parts == parts[..|parts| - 1] + [parts[|parts| - 1]];
    }
  }

  lemma {:induction false} NonEmptyKeeps(parts: seq<string>)
    requires forall i | 0 <= i < |parts| :: parts[i] != ""
    ensures NonEmpty(parts) == parts
  {
    if parts != [] {
      NonEmptyKeeps(parts[..|parts| - 1]);
      assert parts == parts[..|parts| - 1] + [parts[|parts| - 1]];
    }
  }

  /* ---- splitting camel case ---- */

  predicate Boundary(s: string, i: nat)
    requires 0 < i < |s|
  {
    IsUpper(s[i]) && (IsLower(s[i - 1]) || (i + 1 < |s| && IsLower(s[i + 1]) && IsUpper(s[i - 1])))
  }

  function CamelFrom(s: string, start: nat, i: nat): (parts: seq<string>)
    requires start < i <= |s|
    ensures parts != []
    decreases |s| - i
  {
    if i == |s| then [s[start..]]
    else if Boundary(s, i) then [s[start..i]] + CamelFrom(s, i, i + 1)
    else CamelFrom(s, start, i + 1)
  }

  function Camel(s: string): seq<string> { if s == "" then [] else CamelFrom(s, 0, 1) }

  method SplitCamel(s: string) returns (tokens: seq<string>)
    ensures tokens == Camel(s)
  {
    tokens := [];
    if s == "" { return; }
    var start := 0;
    for i := 1 to |s|
      invariant start < i
      invariant tokens + CamelFrom(s, start, i) == Camel(s)
    {
      var prev, cur := s[i - 1], s[i];
      var boundary := false;
      if IsUpper(cur) && IsLower(prev) {
        boundary := true;
      }
      if IsUpper(cur) && i + 1 < |s| && IsLower(s[i + 1]) && IsUpper(prev) {
        boundary := true;
      }
      if boundary {
        assert tokens + ([s[start..i]] + CamelFrom(s, i, i + 1)) == tokens + [s[start..i]] + CamelFrom(s, i, i + 1);
        tokens := tokens + [s[start..i]];
        start := i;
      }
    }
    tokens := tokens + [s[start..]];
  }

  function Concat(parts: seq<string>): string { if parts == [] then "" else parts[0] + Concat(parts[1..]) }

  predicate Unsplit(t: string) { t != "" && forall i | 0 < i < |t| :: !Boundary(t, i) }

  lemma SliceUnsplit(s: string, start: nat, i: nat)
    requires start < i <= |s| && forall k | start < k < i :: !Boundary(s, k)
    ensures Unsplit(s[start..i])
  {
    var t := s[start..i];
    forall k | 0 < k < |t| ensures !Boundary(t, k) {
      assert !Boundary(s, start + k);
      assert k + 1 < |t| ==> t[k + 1] == s[start + k + 1];
    }
  }

  lemma {:induction false} CamelFromFacts(s: string, start: nat, i: nat)
    requires start < i <= |s| && forall k | start < k < i :: !Boundary(s, k)
    ensures Concat(CamelFrom(s, start, i)) == s[start..]
    ensures forall k | 0 <= k < |CamelFrom(s, start, i)| :: Unsplit(CamelFrom(s, start, i)[k])
    decreases |s| - i
  {
    if i == |s| {
      SliceUnsplit(s, start, i);
      assert s[start..i] == s[start..];
      assert Concat([s[start..]]) == s[start..] + Concat([]);
    } else if Boundary(s, i) {
      SliceUnsplit(s, start, i);
      CamelFromFacts(s, i, i + 1);
      assert s[start..] == s[start..i] + s[i..];
    } else {
      CamelFromFacts(s, start, i + 1);
    }
  }

  lemma {:induction false} UnsplitFrom(t: string, i: nat)
    requires Unsplit(t) && 0 < i <= |t|
    ensures CamelFrom(t, 0, i) == [t]
    decreases |t| - i
  {
    if i < |t| { UnsplitFrom(t, i + 1); }
  }

  // splitCamel loses nothing, yields no empty token, and never splits its own output again.
  lemma CamelConserves(s: string)
    ensures Concat(Camel(s)) == s
    ensures forall k | 0 <= k < |Camel(s)| :: Camel(s)[k] != "" && Camel(Camel(s)[k]) == [Camel(s)[k]]
  {
    if s != "" {
      CamelFromFacts(s, 0, 1);
      assert s[0..] == s;
      forall k | 0 <= k < |Camel(s)| ensures Camel(Camel(s)[k]) == [Camel(s)[k]] {
        UnsplitFrom(Camel(s)[k], 1);
      }
    }
  }

  // p is where one of the parts ends and another begins.
  predicate CutAt(parts: seq<string>, start: nat, p: nat) {
    exists k | 0 < k < |parts| :: start + |Concat(parts[..k])| == p
  }

  lemma CutsCons(head: string, rest: seq<string>, start: nat, p: nat)
    requires rest != []
    ensures CutAt([head] + rest, start, p) <==> p == start + |head| || CutAt(rest, start + |head|, p)
  {
    var parts := [head] + rest;
    assert parts[..1] == [head] && Concat([head]) == head + Concat([]);
    forall k | 0 < k < |rest| ensures |Concat(parts[..k + 1])| == |head| + |Concat(rest[..k])| {
      assert parts[..k + 1][1..] == rest[..k];
    }
    if CutAt(parts, start, p) && p != start + |head| {
      var k :| 0 < k < |parts| && start + |Concat(parts[..k])| == p;
      assert k > 1 && start + |head| + |Concat(rest[..k - 1])| == p;
    }
    if CutAt(rest, start + |head|, p) {
      var k :| 0 < k < |rest| && start + |head| + |Concat(rest[..k])| == p;
      assert start + |Concat(parts[..k + 1])| == p;
    }
  }

  lemma {:induction false} CutsFrom(s: string, start: nat, i: nat, p: nat)
    requires start < i <= |s| && start < p < |s|
    ensures CutAt(CamelFrom(s, start, i), start, p) <==> p >= i && Boundary(s, p)
    decreases |s| - i
  {
    if i < |s| {
      if Boundary(s, i) {
        CutsCons(s[start..i], CamelFrom(s, i, i + 1), start, p);
        if p > i { CutsFrom(s, i, i + 1, p); }
      } else {
        CutsFrom(s, start, i + 1, p);
      }
    }
  }

  // splitCamel cuts at every boundary of its input and nowhere else.
  lemma CamelCutsExactly(s: string, p: nat)
    requires 0 < p < |s|
    ensures CutAt(Camel(s), 0, p) <==> Boundary(s, p)
  {
    CutsFrom(s, 0, 1, p);
  }

  lemma {:induction false} ConcatMember(parts: seq<string>, k: nat, c: char)
    requires k < |parts| && c in parts[k]
    ensures c in Concat(parts)
  {
    if k > 0 { ConcatMember(parts[1..], k - 1, c); }
  }

  /* ---- normalisation ---- */

  predicate Kept(t: string) { t != "" && t != "*" && t != ">" }

  function LowerKept(parts: seq<string>): seq<string> {
    if parts == [] then []
    else
      var t := ToLower(TrimSpace(parts[|parts| - 1]));
      LowerKept(parts[..|parts| - 1]) + if Kept(t) then [t] else []
  }

  function CamelAll(parts: seq<string>): seq<string> {
    if parts == [] then [] else CamelAll(parts[..|parts| - 1]) + Camel(parts[|parts| - 1])
  }

  function NormalTokens(s: string): seq<string> { LowerKept(CamelAll(SplitSeparators(TrimSpace(s)))) }

  function Normalize(s: string): string { Join(NormalTokens(s), '.') }

  lemma CamelAllSnoc(parts: seq<string>, i: nat)
    requires i < |parts|
    ensures CamelAll(parts[..i + 1]) == CamelAll(parts[..i]) + Camel(parts[i])
  {
    assert parts[..i + 1][..i] == parts[..i];
  }

  lemma LowerKeptSnoc(parts: seq<string>, i: nat)
    requires i < |parts|
    ensures var t := ToLower(TrimSpace(parts[i]));
            LowerKept(parts[..i + 1]) == LowerKept(parts[..i]) + if Kept(t) then [t] else []
  {
    assert parts[..i + 1][..i] == parts[..i];
  }

  method SplitParts(parts: seq<string>) returns (tokens: seq<string>)
    ensures tokens == CamelAll(parts)
  {
    tokens := [];
    for i := 0 to |parts|
      invariant tokens == CamelAll(parts[..i])
    {
      CamelAllSnoc(parts, i);
      var split := SplitCamel(parts[i]);
      tokens := tokens + split;
    }
    assert parts[..|parts|] == parts;
  }

  method KeepLower(tokens: seq<string>) returns (out: seq<string>)
    ensures out == LowerKept(tokens)
  {
    out := [];
    for i := 0 to |tokens|
      invariant out == LowerKept(tokens[..i])
    {
      LowerKeptSnoc(tokens, i);
      var t := ToLower(TrimSpace(tokens[i]));
      if t == "" || t == "*" || t == ">" { continue; }
      out := out + [t];
    }
    assert tokens[..|tokens|] == tokens;
  }

  method NormalizeSubject(s: string) returns (norm: string)
    ensures norm == Normalize(s)
  {
    var trimmed := TrimSpace(s);
    if trimmed == "" {
      assert Split(Dotted(""), '.') == [""] && NonEmpty([""]) == [];
      return "";
    }
    var tokens := SplitParts(SplitSeparators(trimmed));
    var out := KeepLower(tokens);
    return Join(out, '.');
  }

  predicate GoodToken(t: string) {
    Kept(t) && Trimmed(t) && forall i | 0 <= i < |t| :: !IsUpper(t[i]) && !IsSeparator(t[i])
  }

  predicate GoodTokens(toks: seq<string>) { forall i | 0 <= i < |toks| :: GoodToken(toks[i]) }

  predicate SeparatorFree(parts: seq<string>) {
    forall k, c | 0 <= k < |parts| && c in parts[k] :: !IsSeparator(c)
  }

  lemma SeparatorsAreGone(s: string)
    ensures SeparatorFree(SplitSeparators(s))
  {
    var parts := Split(Dotted(s), '.');
    JoinOfSplit(Dotted(s), '.');
    forall k, c | 0 <= k < |SplitSeparators(s)| && c in SplitSeparators(s)[k] ensures !IsSeparator(c) {
      var t := SplitSeparators(s)[k];
      NonEmptyMembers(parts, t);
      var j :| 0 <= j < |parts| && parts[j] == t;
      JoinMember(parts, j, c);
      var i :| 0 <= i < |Dotted(s)| && Dotted(s)[i] == c;
    }
  }

  lemma {:induction false} JoinMember(parts: seq<string>, j: nat, c: char)
    requires j < |parts| && c in parts[j]
    ensures c in Join(parts, '.')
  {
    if j > 0 { JoinMember(parts[1..], j - 1, c); }
  }

  lemma {:induction false} CamelAllSeparatorFree(parts: seq<string>)
    requires SeparatorFree(parts)
    ensures SeparatorFree(CamelAll(parts))
  {
    if parts != [] {
      var n := |parts| - 1;
      CamelAllSeparatorFree(parts[..n]);
      CamelConserves(parts[n]);
      forall k, c | 0 <= k < |CamelAll(parts)| && c in CamelAll(parts)[k] ensures !IsSeparator(c) {
        var m := |CamelAll(parts[..n])|;
        if k < m {
          assert CamelAll(parts)[k] == CamelAll(parts[..n])[k];
        } else {
          assert CamelAll(parts)[k] == Camel(parts[n])[k - m];
          ConcatMember(Camel(parts[n]), k - m, c);
        }
      }
    }
  }

  lemma TrimSpaceMember(s: string, c: char)
    requires c in TrimSpace(s)
    ensures c in s
  {
    TrimLeftMember(s, c);
  }

  lemma {:induction false} TrimLeftMember(s: string, c: char)
    requires c in TrimLeft(s)
    ensures c in s
  {
    if s != "" && IsSpace(s[0]) { TrimLeftMember(s[1..], c); }
  }

  lemma {:induction false} LowerKeptGood(parts: seq<string>)
    requires SeparatorFree(parts)
    ensures GoodTokens(LowerKept(parts))
  {
    if parts != [] {
      var p := parts[|parts| - 1];
      var t := ToLower(TrimSpace(p));
      LowerKeptGood(parts[..|parts| - 1]);
      forall i | 0 <= i < |t| ensures !IsUpper(t[i]) && !IsSeparator(t[i]) { TrimSpaceMember(p, TrimSpace(p)[i]); }
    }
  }

  // What normalisation emits: non-empty, trimmed, lower-case tokens free of separators and of bare
  // wildcards, which the result determines uniquely.
  lemma NormalTokensAreGood(s: string)
    ensures GoodTokens(NormalTokens(s))
    ensures Normalize(s) == "" <==> NormalTokens(s) == []
    ensures NormalTokens(s) != [] ==> Split(Normalize(s), '.') == NormalTokens(s)
  {
    SeparatorsAreGone(TrimSpace(s));
    CamelAllSeparatorFree(SplitSeparators(TrimSpace(s)));
    LowerKeptGood(CamelAll(SplitSeparators(TrimSpace(s))));
    var toks := NormalTokens(s);
    if toks != [] {
      GoodHasNoDot(toks);
      SplitOfJoin(toks, '.');
      assert Kept(toks[0]);
    }
  }

  lemma GoodHasNoDot(toks: seq<string>)
    requires GoodTokens(toks)
    ensures forall i | 0 <= i < |toks| :: '.' !in toks[i]
  {
    forall i | 0 <= i < |toks| ensures '.' !in toks[i] { assert GoodToken(toks[i]); }
  }

  lemma {:induction false} JoinIsTrimmed(toks: seq<string>)
    requires toks != [] && forall i | 0 <= i < |toks| :: toks[i] != ""
    requires StartsSolid(toks[0]) && EndsSolid(toks[|toks| - 1])
    ensures Join(toks, '.') != "" && Trimmed(Join(toks, '.'))
  {
    if |toks| > 1 {
      JoinEnds(toks);
    }
  }

  lemma {:induction false} JoinEnds(toks: seq<string>)
    requires toks != [] && forall i | 0 <= i < |toks| :: toks[i] != ""
    ensures Join(toks, '.') != "" && Join(toks, '.')[0] == toks[0][0]
    ensures Join(toks, '.')[|Join(toks, '.')| - 1] == toks[|toks| - 1][|toks[|toks| - 1]| - 1]
  {
    if |toks| > 1 {
      JoinEnds(toks[1..]);
      JoinMore(toks);
    }
  }

  lemma JoinMore(toks: seq<string>)
    requires |toks| > 1 && toks[0] != "" && Join(toks[1..], '.') != ""
    ensures Join(toks, '.') != "" && Join(toks, '.')[0] == toks[0][0]
    ensures Join(toks, '.')[|Join(toks, '.')| - 1] == Join(toks[1..], '.')[|Join(toks[1..], '.')| - 1]
  {}

  lemma {:induction false} JoinHasNoOtherSeparator(toks: seq<string>)
    requires GoodTokens(toks)
    ensures Dotted(Join(toks, '.')) == Join(toks, '.')
  {
    if |toks| > 0 {
      assert GoodToken(toks[0]);
      if |toks| > 1 { JoinHasNoOtherSeparator(toks[1..]); }
    }
  }

  lemma LowerCaseIsUnsplit(t: string)
    requires t != "" && forall i | 0 <= i < |t| :: !IsUpper(t[i])
    ensures Camel(t) == [t]
  {
    UnsplitFrom(t, 1);
  }

  lemma GoodTokenIsFixed(t: string)
    requires GoodToken(t)
    ensures Camel(t) == [t] && ToLower(TrimSpace(t)) == t
  {
    LowerCaseIsUnsplit(t);
    TrimmedIsFixed(t);
  }

  lemma {:induction false} CamelAllKeeps(toks: seq<string>)
    requires GoodTokens(toks)
    ensures CamelAll(toks) == toks
  {
    if toks != [] {
      var n := |toks| - 1;
      CamelAllKeeps(toks[..n]);
      assert GoodToken(toks[n]);
      GoodTokenIsFixed(toks[n]);
      assert toks == toks[..n] + [toks[n]];
    }
  }

  lemma {:induction false} LowerKeptKeeps(toks: seq<string>)
    requires GoodTokens(toks)
    ensures LowerKept(toks) == toks
  {
    if toks != [] {
      var n := |toks| - 1;
      LowerKeptKeeps(toks[..n]);
      assert GoodToken(toks[n]);
      GoodTokenIsFixed(toks[n]);
      assert toks == toks[..n] + [toks[n]];
    }
  }

  // Text made of good tokens is already normal.
  lemma GoodTextIsNormal(toks: seq<string>)
    requires GoodTokens(toks)
    ensures NormalTokens(Join(toks, '.')) == toks
  {
    if toks == [] {
      assert Split(Dotted(""), '.') == [""] && NonEmpty([""]) == [];
    } else {
      forall i | 0 <= i < |toks| ensures toks[i] != "" { assert GoodToken(toks[i]); }
      assert GoodToken(toks[0]) && GoodToken(toks[|toks| - 1]);
      JoinIsTrimmed(toks);
      TrimmedIsFixed(Join(toks, '.'));
      JoinHasNoOtherSeparator(toks);
      GoodHasNoDot(toks);
      SplitOfJoin(toks, '.');
      NonEmptyKeeps(toks);
      CamelAllKeeps(toks);
      LowerKeptKeeps(toks);
    }
  }

  lemma NormalizeIsIdempotent(s: string)
    ensures Normalize(Normalize(s)) == Normalize(s)
  {
    NormalTokensAreGood(s);
    GoodTextIsNormal(NormalTokens(s));
  }

  /* ---- the two keys ---- */

  function Singularize(tok: string): (r: string)
    ensures r <= tok && (tok != "" ==> r != "")
  {
    if |tok| > 1 && tok[|tok| - 1] == 's' && !(tok[|tok| - 2] == 's') then tok[..|tok| - 1] else tok
  }

  lemma SingularizeIsIdempotent(tok: string)
    ensures Singularize(Singularize(tok)) == Singularize(tok)
  {}

  function Fingerprint(s: string): string {
    if Normalize(s) == "" then ""
    else
      var tokens := Split(Normalize(s), '.');
      Join(tokens[0 := Singularize(tokens[0])], '.')
  }

  const ACTION_SYNONYMS: map<string, string> := map[
    "created" := "created", "new" := "created", "added" := "created", "insert" := "created", "inserted" := "created",
    "updated" := "updated", "changed" := "updated", "modified" := "updated", "patched" := "updated",
    "deleted" := "deleted", "removed" := "deleted", "cancelled" := "deleted", "canceled" := "deleted"]

  function CanonicalizeAction(tok: string): string {
    var t := ToLower(TrimSpace(tok));
    if t in ACTION_SYNONYMS then ACTION_SYNONYMS[t] else t
  }

  // All tokens but the last lose their plural, the last is made canonical; a single token both.
  function GenomeToken(toks: seq<string>, canon: string -> string, i: nat): string
    requires i < |toks|
  {
    if i < |toks| - 1 then Singularize(toks[i]) else canon(if i == 0 then Singularize(toks[i]) else toks[i])
  }

  function GenomeTokens(toks: seq<string>, canon: string -> string): (r: seq<string>)
    ensures |r| == |toks| && forall i | 0 <= i < |toks| :: r[i] == GenomeToken(toks, canon, i)
  {
    seq(|toks|, i requires 0 <= i < |toks| => GenomeToken(toks, canon, i))
  }

  function GenomeKey(s: string): string {
    if Normalize(s) == "" then "" else Join(GenomeTokens(Split(Normalize(s), '.'), CanonicalizeAction), '.')
  }

  // EventGenomeKey rewrites the token slice in place.
  method RewriteGenomeTokens(tokens: array<string>)
    requires tokens.Length > 1
    modifies tokens
    ensures tokens[..] == GenomeTokens(old(tokens[..]), CanonicalizeAction)
  {
    var last := tokens.Length - 1;
    for i := 0 to last
      invariant forall k | 0 <= k < i :: tokens[k] == Singularize(old(tokens[k]))
      invariant forall k | i <= k < tokens.Length :: tokens[k] == old(tokens[k])
    {
      tokens[i] := Singularize(tokens[i]);
    }
    tokens[last] := CanonicalizeAction(tokens[last]);
  }

  method EventGenomeKey(s: string) returns (key: string)
    ensures key == GenomeKey(s)
  {
    var norm := NormalizeSubject(s);
    if norm == "" { return ""; }
    var toks := Split(norm, '.');
    if |toks| == 1 { return CanonicalizeAction(Singularize(toks[0])); }
    var tokens := new string[|toks|](i requires 0 <= i < |toks| => toks[i]);
    assert tokens[..] == toks;
    RewriteGenomeTokens(tokens);
    return Join(tokens[..], '.');
  }

  lemma SingularHasNoDot(toks: seq<string>)
    requires toks != [] && GoodTokens(toks)
    ensures var r := toks[0 := Singularize(toks[0])]; forall i | 0 <= i < |r| :: '.' !in r[i] && r[i] != ""
  {
    GoodHasNoDot(toks);
    forall i | 0 <= i < |toks| ensures toks[i] != "" { assert GoodToken(toks[i]); }
  }

  lemma {:induction false} JoinNonEmpty(toks: seq<string>)
    requires toks != [] && toks[0] != ""
    ensures Join(toks, '.') != ""
  {}

  // The fingerprint gives back all tokens, up to the plural of the first.
  lemma FingerprintTokens(s: string)
    ensures Fingerprint(s) == "" <==> NormalTokens(s) == []
    ensures var x := NormalTokens(s); x != [] ==> Split(Fingerprint(s), '.') == x[0 := Singularize(x[0])]
  {
    NormalTokensAreGood(s);
    var x := NormalTokens(s);
    if x != [] {
      SingularHasNoDot(x);
      JoinNonEmpty(x[0 := Singularize(x[0])]);
      SplitOfJoin(x[0 := Singularize(x[0])], '.');
    }
  }

  lemma SameUpToPlural(x: seq<string>, y: seq<string>, canon: string -> string)
    requires x != [] && y != [] && x[0 := Singularize(x[0])] == y[0 := Singularize(y[0])]
    ensures GenomeTokens(x, canon) == GenomeTokens(y, canon)
  {
    var u, v := x[0 := Singularize(x[0])], y[0 := Singularize(y[0])];
    assert |x| == |u| == |v| == |y|;
    assert Singularize(x[0]) == u[0] == v[0] == Singularize(y[0]);
    forall i | 0 < i < |x| ensures x[i] == y[i] { assert x[i] == u[i] == v[i] == y[i]; }
  }

  // The genome key is a function of the naming fingerprint: subjects that are naming variants of one
  // another always fall into the same genome cluster.
  lemma FingerprintDeterminesGenome(s: string, t: string)
    requires Fingerprint(s) == Fingerprint(t)
    ensures GenomeKey(s) == GenomeKey(t)
  {
    FingerprintTokens(s);
    FingerprintTokens(t);
    NormalTokensAreGood(s);
    NormalTokensAreGood(t);
    if NormalTokens(s) != [] { SameUpToPlural(NormalTokens(s), NormalTokens(t), CanonicalizeAction); }
  }

  lemma CanonicalHasNoDot(tok: string)
    requires '.' !in tok
    ensures '.' !in CanonicalizeAction(tok)
  {
    var t := ToLower(TrimSpace(tok));
    if '.' in t {
      var i :| 0 <= i < |t| && t[i] == '.';
      TrimSpaceMember(tok, TrimSpace(tok)[i]);
      assert false;
    }
    if t in ACTION_SYNONYMS {
      assert ACTION_SYNONYMS[t] in ["created", "updated", "deleted"];
    }
  }

  ghost predicate KeepsDotsOut(canon: string -> string) { forall t | '.' !in t :: '.' !in canon(t) }

  lemma GenomeHasNoDot(toks: seq<string>, canon: string -> string)
    requires KeepsDotsOut(canon) && forall i | 0 <= i < |toks| :: '.' !in toks[i]
    ensures forall i | 0 <= i < |toks| :: '.' !in GenomeTokens(toks, canon)[i]
  {
    forall i | 0 <= i < |toks| ensures '.' !in GenomeTokens(toks, canon)[i] {
      assert '.' !in toks[i];
      SingularHasNoDotEither(toks[i]);
    }
  }

  lemma SingularHasNoDotEither(tok: string)
    requires '.' !in tok
    ensures '.' !in Singularize(tok)
  {}

  // What the genome key compares: the number of tokens, all of them but the last up to the plural, and the
  // last one up to synonyms of the action (and up to the plural too, if it is the only one).
  predicate SameGenome(x: seq<string>, y: seq<string>, canon: string -> string) {
    && |x| == |y|
    && (forall i | 0 <= i < |x| - 1 :: Singularize(x[i]) == Singularize(y[i]))
    && (|x| > 1 ==> canon(x[|x| - 1]) == canon(y[|x| - 1]))
    && (|x| == 1 ==> canon(Singularize(x[0])) == canon(Singularize(y[0])))
  }

  lemma SameGenomeTokens(x: seq<string>, y: seq<string>, canon: string -> string)
    ensures GenomeTokens(x, canon) == GenomeTokens(y, canon) <==> SameGenome(x, y, canon)
  {
    var g, h := GenomeTokens(x, canon), GenomeTokens(y, canon);
    if g == h && x != [] {
      var n := |x| - 1;
      assert |x| == |g| == |h| == |y|;
      forall i | 0 <= i < n ensures Singularize(x[i]) == Singularize(y[i]) { assert g[i] == h[i]; }
      assert g[n] == h[n];
    }
    if SameGenome(x, y, canon) {
      forall i | 0 <= i < |x| ensures g[i] == h[i] { assert i < |x| - 1 ==> Singularize(x[i]) == Singularize(y[i]); }
    }
  }

  // Two subjects have the same genome key exactly if their normal tokens agree in that sense.
  lemma GenomeKeyExactly(s: string, t: string)
    ensures GenomeKey(s) == GenomeKey(t) <==> SameGenome(NormalTokens(s), NormalTokens(t), CanonicalizeAction)
  {
    var x, y := NormalTokens(s), NormalTokens(t);
    GenomeKeyIsTrimmed(s);
    GenomeKeyIsTrimmed(t);
    if x != [] && y != [] {
      SplitOfGenomeKey(s);
      SplitOfGenomeKey(t);
      NormalTokensAreGood(s);
      NormalTokensAreGood(t);
      SameGenomeTokens(x, y, CanonicalizeAction);
    }
  }

  lemma SplitOfGenomeKey(s: string)
    requires NormalTokens(s) != []
    ensures Split(GenomeKey(s), '.') == GenomeTokens(NormalTokens(s), CanonicalizeAction)
  {
    var x := NormalTokens(s);
    NormalTokensAreGood(s);
    GoodHasNoDot(x);
    forall t | '.' !in t ensures '.' !in CanonicalizeAction(t) { CanonicalHasNoDot(t); }
    GenomeHasNoDot(x, CanonicalizeAction);
    SplitOfJoin(GenomeTokens(x, CanonicalizeAction), '.');
  }

  lemma CanonicalIsTrimmed(tok: string)
    requires tok != "" && !IsSpace(tok[0])
    ensures CanonicalizeAction(tok) != "" && Trimmed(CanonicalizeAction(tok))
  {
    var t := ToLower(TrimSpace(tok));
    assert TrimLeft(tok) == tok;
    TrimRightNonEmpty(tok);
    if t in ACTION_SYNONYMS {
      assert ACTION_SYNONYMS[t] in ["created", "updated", "deleted"];
    }
  }

  lemma {:induction false} TrimRightNonEmpty(s: string)
    requires s != "" && !IsSpace(s[0])
    ensures TrimRight(s) != ""
  {
    if IsSpace(s[|s| - 1]) { TrimRightNonEmpty(s[..|s| - 1]); }
  }

  predicate StartsSolid(t: string) { t != "" && !IsSpace(t[0]) }

  predicate EndsSolid(t: string) { t != "" && !IsSpace(t[|t| - 1]) }

  ghost predicate KeepsSolid(canon: string -> string) {
    forall t | StartsSolid(t) :: StartsSolid(canon(t)) && EndsSolid(canon(t))
  }

  lemma GenomeTokensShape(toks: seq<string>, canon: string -> string)
    requires toks != [] && GoodTokens(toks) && KeepsSolid(canon)
    ensures var g := GenomeTokens(toks, canon); StartsSolid(g[0]) && EndsSolid(g[|toks| - 1])
    ensures forall i | 0 <= i < |toks| :: GenomeTokens(toks, canon)[i] != ""
  {
    forall i | 0 <= i < |toks|
      ensures StartsSolid(toks[i]) && StartsSolid(Singularize(toks[i]))
    {
      assert GoodToken(toks[i]);
    }
  }

  // A genome key never begins or ends with a space, and it is empty only for subjects without tokens.
  lemma GenomeKeyIsTrimmed(s: string)
    ensures TrimSpace(GenomeKey(s)) == GenomeKey(s)
    ensures GenomeKey(s) == "" <==> NormalTokens(s) == []
  {
    NormalTokensAreGood(s);
    var toks := NormalTokens(s);
    if toks != [] {
      forall t | StartsSolid(t)
        ensures StartsSolid(CanonicalizeAction(t)) && EndsSolid(CanonicalizeAction(t))
      {
        CanonicalIsTrimmed(t);
      }
      GenomeTokensShape(toks, CanonicalizeAction);
      JoinIsTrimmed(GenomeTokens(toks, CanonicalizeAction));
      TrimmedIsFixed(GenomeKey(s));
    }
  }
}
