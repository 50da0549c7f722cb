/** Subject patterns: two wildcard matchers and an overlap test, compared with one definition of matching. */
module SubjectMatch {
  import opened Text

  const STAR := "*"
  const TAIL := ">"

  /* ---- what a pattern matches ---- */

  predicate IsWildcard(tok: string) { tok == STAR || tok == TAIL }

  predicate Literal(toks: seq<string>) { forall i | 0 <= i < |toks| :: !IsWildcard(toks[i]) }

  predicate TokenFits(pat: string, tok: string) { pat == STAR || pat == tok }

  // The position of the first ">", or the length when there is none.
  function TailAt(pat: seq<string>): (g: nat)
    ensures g <= |pat| && (g < |pat| ==> pat[g] == TAIL) && forall i | 0 <= i < g :: pat[i] != TAIL
  {
    if pat == [] || pat[0] == TAIL then 0 else 1 + TailAt(pat[1..])
  }

  predicate HeadFits(sub: seq<string>, pat: seq<string>) {
    TailAt(pat) <= |sub| && forall i | 0 <= i < TailAt(pat) :: TokenFits(pat[i], sub[i])
  }

  // A pattern matches token by token up to its first ">", which stands for one or more tokens.
  predicate Matches(sub: seq<string>, pat: seq<string>) {
    HeadFits(sub, pat) && if TailAt(pat) == |pat| then |sub| == |pat| else |sub| > TailAt(pat)
  }

  // The one case in which the two matchers differ: the pattern fits the whole subject and its next
  // token is ">".
  predicate EndsAtTail(sub: seq<string>, pat: seq<string>) {
    HeadFits(sub, pat) && TailAt(pat) < |pat| && |sub| == TailAt(pat)
  }

  lemma MatchesStep(sub: seq<string>, pat: seq<string>)
    requires sub != [] && pat != [] && pat[0] != TAIL
    ensures Matches(sub, pat) <==> TokenFits(pat[0], sub[0]) && Matches(sub[1..], pat[1..])
  {
    var g := TailAt(pat[1..]);
    assert TailAt(pat) == 1 + g;
    if TokenFits(pat[0], sub[0]) && HeadFits(sub[1..], pat[1..]) {
      forall i | 0 <= i < 1 + g ensures TokenFits(pat[i], sub[i]) {
        if i > 0 { assert pat[i] == pat[1..][i - 1] && sub[i] == sub[1..][i - 1]; }
      }
    }
    if HeadFits(sub, pat) {
      forall i | 0 <= i < g ensures TokenFits(pat[1..][i], sub[1..][i]) { assert TokenFits(pat[i + 1], sub[i + 1]); }
    }
  }

  // Matching, one token at a time from the front: ">" takes whatever is left, which must be something; "*" takes
  // any one token, and any other token itself.
  lemma MatchesByTokens(sub: seq<string>, pat: seq<string>)
    ensures Matches(sub, pat) <==>
              if pat == [] then sub == []
              else if pat[0] == ">" then sub != []
              else sub != [] && (pat[0] == "*" || pat[0] == sub[0]) && Matches(sub[1..], pat[1..])
  {
    if sub != [] && pat != [] && pat[0] != TAIL { MatchesStep(sub, pat); }
  }

  // matchSubjectPattern consumes both token lists from the front.
  method MatchSubjectPattern(subject: string, pattern: string) returns (r: bool)
    ensures r <==> Matches(Split(subject, '.'), Split(pattern, '.'))
  {
    var sub, pat := Split(subject, '.'), Split(pattern, '.');
    while |pat| > 0
      invariant Matches(Split(subject, '.'), Split(pattern, '.')) <==> Matches(sub, pat)
      decreases |pat|
    {
      if |pat| == 1 && pat[0] == TAIL { return |sub| > 0; }
      if |sub| == 0 { return false; }
      if pat[0] == TAIL { return true; }
      MatchesStep(sub, pat);
      if pat[0] != STAR && sub[0] != pat[0] { return false; }
      sub, pat := sub[1..], pat[1..];
    }
    return |sub| == 0;
  }

  predicate Accepts(sub: seq<string>, pat: seq<string>) { Matches(sub, pat) || EndsAtTail(sub, pat) }

  predicate FitsUpTo(sub: seq<string>, pat: seq<string>, n: nat) {
    n <= TailAt(pat) && n <= |sub| && forall i | 0 <= i < n :: TokenFits(pat[i], sub[i])
  }

  // What the tokens at position n decide, when the ones before it fit.
  lemma Decide(sub: seq<string>, pat: seq<string>, n: nat)
    requires FitsUpTo(sub, pat, n)
    ensures n < |pat| && pat[n] == TAIL ==> Accepts(sub, pat)
    ensures n < |pat| && n < |sub| && pat[n] != TAIL && !TokenFits(pat[n], sub[n]) ==> !Accepts(sub, pat)
    ensures n == |pat| ==> (Accepts(sub, pat) <==> n == |sub|)
    ensures n < |pat| && n == |sub| && pat[n] != TAIL ==> !Accepts(sub, pat)
    ensures n < |pat| && n < |sub| && pat[n] != TAIL && TokenFits(pat[n], sub[n]) ==> FitsUpTo(sub, pat, n + 1)
  {}

  // natsSubjectMatch walks both lists with one index each.  It agrees with matchSubjectPattern on every
  // filter and subject except exactly when the filter fits the whole subject and goes on with ">".
  method NatsSubjectMatch(filter: string, subject: string) returns (r: bool)
    ensures var pat, sub := Split(filter, '.'), Split(subject, '.');
            r <==> Matches(sub, pat) || EndsAtTail(sub, pat)
  {
    r := WalkTokens(Split(filter, '.'), Split(subject, '.'));
  }

  method WalkTokens(ft: seq<string>, st: seq<string>) returns (r: bool)
    ensures r <==> Accepts(st, ft)
  {
    var fi, si := 0, 0;
    while fi < |ft| && si < |st|
      invariant 0 <= fi == si && FitsUpTo(st, ft, fi)
      decreases |ft| - fi
    {
      Decide(st, ft, fi);
      var tok := ft[fi];
      if tok == TAIL { return true; }
      if tok != STAR && tok != st[si] { return false; }
      fi, si := fi + 1, si + 1;
    }
    Decide(st, ft, fi);
    if fi == |ft| && si == |st| { return true; }
    if fi < |ft| && ft[fi] == TAIL { return true; }
    return false;
  }

  /* ---- the overlap test ---- */

  function Tokens(s: string): seq<string> { Split(TrimSpace(s), '.') }

  predicate Overlap(a: string, b: string) {
    && TrimSpace(a) != "" && TrimSpace(b) != ""
    && (TrimSpace(a) == TrimSpace(b) || Matches(Tokens(a), Tokens(b)) || Matches(Tokens(b), Tokens(a)))
  }

  method SubjectsOverlap(a: string, b: string) returns (r: bool)
    ensures r <==> Overlap(a, b)
  {
    var x, y := TrimSpace(a), TrimSpace(b);
    if x == "" || y == "" { return false; }
    if x == y { return true; }
    r := MatchSubjectPattern(x, y);
    if !r { r := MatchSubjectPattern(y, x); }
  }

  // A concrete subject for a pattern: every wildcard becomes the token "x".
  function Instance(toks: seq<string>): seq<string> {
    seq(|toks|, i requires 0 <= i < |toks| => if IsWildcard(toks[i]) then "x" else toks[i])
  }

  lemma InstanceFits(a: seq<string>, b: seq<string>)
    requires Matches(a, b)
    ensures Literal(Instance(a)) && Matches(Instance(a), a) && Matches(Instance(a), b)
  {}

  lemma InstanceAsText(a: seq<string>)
    requires a != [] && forall i | 0 <= i < |a| :: '.' !in a[i]
    ensures Split(Join(Instance(a), '.'), '.') == Instance(a)
  {
    SplitOfJoin(Instance(a), '.');
  }

  lemma MatchesItself(a: seq<string>)
    ensures Matches(a, a)
  {}

  // Sound for all patterns: when two patterns are reported to overlap, some subject without wildcards
  // is matched by both.
  lemma OverlapIsSound(a: string, b: string)
    requires Overlap(a, b)
    ensures exists s: string ::
            Literal(Split(s, '.')) && Matches(Split(s, '.'), Tokens(a)) && Matches(Split(s, '.'), Tokens(b))
  {
    MatchesItself(Tokens(a));
    var toks := if Matches(Tokens(a), Tokens(b)) then Tokens(a) else Tokens(b);
    InstanceFits(toks, if toks == Tokens(a) then Tokens(b) else Tokens(a));
    InstanceAsText(toks);
    var s := Join(Instance(toks), '.');
    assert Split(s, '.') == Instance(toks);
  }

  // When one side has no wildcard, overlap is exactly matching.
  lemma OverlapWithLiteral(s: string, p: string)
    requires Literal(Tokens(s))
    ensures Overlap(s, p) <==> TrimSpace(s) != "" && TrimSpace(p) != "" && Matches(Tokens(s), Tokens(p))
    ensures Overlap(p, s) <==> Overlap(s, p)
  {
    var st, pt := Tokens(s), Tokens(p);
    assert TailAt(st) == |st|;
    if Matches(pt, st) {
      forall i | 0 <= i < |st| ensures pt[i] == st[i] { assert TokenFits(st[i], pt[i]); }
      assert pt == st;
      MatchesItself(st);
    }
    MatchesItself(st);
  }

  predicate SharedBy(s: seq<string>, a: seq<string>, b: seq<string>) { Literal(s) && Matches(s, a) && Matches(s, b) }

  // b has a literal token where a, up to its first ">", has "*", or where a goes on behind its first ">"
  // with another token.
  predicate WiderAt(a: seq<string>, b: seq<string>, i: nat)
    requires i < |a| && i < |b|
  {
    b[i] != STAR && if i < TailAt(a) then a[i] == STAR else a[i] != b[i]
  }

  // a has the wrong number of tokens for b, or is wider than b at some position before the first ">" of b.
  predicate Exceeds(a: seq<string>, b: seq<string>) {
    || (if TailAt(b) == |b| then |a| != |b| else |a| <= TailAt(b))
    || exists i | 0 <= i < TailAt(b) && i < |a| :: WiderAt(a, b, i)
  }

  lemma WiderDoesNotFit(s: seq<string>, a: seq<string>, b: seq<string>, i: nat)
    requires SharedBy(s, a, b) && i < TailAt(b) && i < |a|
    ensures i < |b| && (WiderAt(a, b, i) <==> !TokenFits(b[i], a[i]))
  {
    if i < TailAt(a) { assert TokenFits(a[i], s[i]) && TokenFits(b[i], s[i]); }
  }

  lemma MatchesUnlessExceeding(s: seq<string>, a: seq<string>, b: seq<string>)
    requires SharedBy(s, a, b)
    ensures Matches(a, b) <==> !Exceeds(a, b)
  {
    forall i | 0 <= i < TailAt(b) && i < |a| ensures i < |b| && (WiderAt(a, b, i) <==> !TokenFits(b[i], a[i])) {
      WiderDoesNotFit(s, a, b, i);
    }
  }

  // Two patterns that share a subject are reported disjoint exactly when each exceeds the other.
  lemma OverlapMissesCrossings(a: string, b: string, s: seq<string>)
    requires TrimSpace(a) != "" && TrimSpace(b) != "" && SharedBy(s, Tokens(a), Tokens(b))
    ensures !Overlap(a, b) <==> Exceeds(Tokens(a), Tokens(b)) && Exceeds(Tokens(b), Tokens(a))
  {
    MatchesUnlessExceeding(s, Tokens(a), Tokens(b));
    MatchesUnlessExceeding(s, Tokens(b), Tokens(a));
    MatchesItself(Tokens(a));
  }

  /* ---- which patterns share a subject ---- */

  // Some number of tokens suits both patterns.
  predicate LengthsMeet(a: seq<string>, b: seq<string>) {
    var (ga, gb) := (TailAt(a), TailAt(b));
    if ga == |a| then (if gb == |b| then |a| == |b| else |a| > gb) else gb < |b| || |b| > ga
  }

  // Before the first ">" of either, two literal tokens at one position are equal.
  predicate TokensMeet(a: seq<string>, b: seq<string>) {
    forall i | 0 <= i < TailAt(a) && i < TailAt(b) :: a[i] == STAR || b[i] == STAR || a[i] == b[i]
  }

  // A token that suits both patterns at position i, when there is one.
  function Meeting(a: seq<string>, b: seq<string>, i: nat): string {
    if i < TailAt(a) && a[i] != STAR then a[i] else if i < TailAt(b) && b[i] != STAR then b[i] else "x"
  }

  function Witness(a: seq<string>, b: seq<string>): (s: seq<string>)
    ensures forall i | 0 <= i < |s| :: s[i] == Meeting(a, b, i)
  {
    var n := if TailAt(a) == |a| then |a|
             else if TailAt(b) == |b| then |b|
             else 1 + if TailAt(a) < TailAt(b) then TailAt(b) else TailAt(a);
    seq(n, i requires i >= 0 => Meeting(a, b, i))
  }

  lemma WitnessIsShared(a: seq<string>, b: seq<string>)
    requires LengthsMeet(a, b) && TokensMeet(a, b)
    ensures SharedBy(Witness(a, b), a, b)
  {
    var s := Witness(a, b);
    forall i | 0 <= i < |s| ensures !IsWildcard(s[i]) { assert s[i] == Meeting(a, b, i); }
    forall i | 0 <= i < TailAt(a) ensures TokenFits(a[i], s[i]) { assert s[i] == Meeting(a, b, i); }
    forall i | 0 <= i < TailAt(b) ensures TokenFits(b[i], s[i]) { assert s[i] == Meeting(a, b, i); }
  }

  lemma SharingMeets(s: seq<string>, a: seq<string>, b: seq<string>)
    requires SharedBy(s, a, b)
    ensures LengthsMeet(a, b) && TokensMeet(a, b)
  {
    forall i | 0 <= i < TailAt(a) && i < TailAt(b) ensures a[i] == STAR || b[i] == STAR || a[i] == b[i] {
      assert TokenFits(a[i], s[i]) && TokenFits(b[i], s[i]);
    }
  }

  lemma WitnessAsText(a: seq<string>, b: seq<string>)
    requires Witness(a, b) != [] && (forall i | 0 <= i < |a| :: '.' !in a[i]) && forall i | 0 <= i < |b| :: '.' !in b[i]
    ensures Split(Join(Witness(a, b), '.'), '.') == Witness(a, b)
  {
    forall i | 0 <= i < |Witness(a, b)| ensures '.' !in Witness(a, b)[i] {
      assert Witness(a, b)[i] == Meeting(a, b, i);
    }
    SplitOfJoin(Witness(a, b), '.');
  }

  // Some literal subject is matched by both patterns.
  ghost predicate ShareSubject(a: string, b: string) {
    exists s: string :: SharedBy(Split(s, '.'), Tokens(a), Tokens(b))
  }

  lemma SharedExactly(a: string, b: string)
    ensures ShareSubject(a, b) <==> LengthsMeet(Tokens(a), Tokens(b)) && TokensMeet(Tokens(a), Tokens(b))
  {
    var x, y := Tokens(a), Tokens(b);
    if LengthsMeet(x, y) && TokensMeet(x, y) {
      WitnessIsShared(x, y);
      WitnessAsText(x, y);
      assert SharedBy(Split(Join(Witness(x, y), '.'), '.'), x, y);
    }
    forall s: string | SharedBy(Split(s, '.'), x, y) ensures LengthsMeet(x, y) && TokensMeet(x, y) {
      SharingMeets(Split(s, '.'), x, y);
    }
  }

  // The overlap test misses a pair of patterns that share a subject exactly when their lengths and their
  // tokens meet and each exceeds the other.
  lemma OverlapMissesExactly(a: string, b: string)
    requires TrimSpace(a) != "" && TrimSpace(b) != ""
    ensures ShareSubject(a, b) && !Overlap(a, b)
       <==> var (x, y) := (Tokens(a), Tokens(b));
            LengthsMeet(x, y) && TokensMeet(x, y) && Exceeds(x, y) && Exceeds(y, x)
  {
    SharedExactly(a, b);
    if ShareSubject(a, b) {
      var s: string :| SharedBy(Split(s, '.'), Tokens(a), Tokens(b));
      OverlapMissesCrossings(a, b, Split(s, '.'));
    }
  }

  // The smallest crossing: a.*.c and *.b.c share a.b.c but are reported disjoint.
  lemma CrossingExample()
    ensures SharedBy(["a", "b", "c"], ["a", STAR, "c"], [STAR, "b", "c"])
    ensures !Matches(["a", STAR, "c"], [STAR, "b", "c"]) && !Matches([STAR, "b", "c"], ["a", STAR, "c"])
  {
    var x, y := ["a", STAR, "c"], [STAR, "b", "c"];
    assert !TokenFits(y[1], x[1]) && !TokenFits(x[0], y[0]);
  }

  // The same with a tail: a.> and *.b share a.b.
  lemma TailCrossingExample()
    ensures SharedBy(["a", "b"], ["a", TAIL], [STAR, "b"])
    ensures !Matches(["a", TAIL], [STAR, "b"]) && !Matches([STAR, "b"], ["a", TAIL])
  {
    var x, y := ["a", TAIL], [STAR, "b"];
    assert x[1..] == [TAIL] && TailAt(x) == 1;
    assert !TokenFits(y[1], x[1]) && !TokenFits(x[0], y[0]);
  }

  // The smallest input on which the two matchers disagree: the filter a.> and the subject a.
  lemma MatchersDisagree()
    ensures var pat, sub := Split("a" + "." + TAIL, '.'), Split("a", '.');
            EndsAtTail(sub, pat) && !Matches(sub, pat)
  {
    SplitPlain("a", '.');
    SplitPlain(TAIL, '.');
    SplitHead("a", TAIL, '.');
    assert ["a", TAIL] == ["a"] + [TAIL];
    assert ["a", TAIL][1..] == [TAIL] && TailAt(["a", TAIL]) == 1;
  }
}
