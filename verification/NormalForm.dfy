/** Which tokens the subject normaliser emits, and how the two keys treat plurals and actions. */
module NormalForm {
  import opened SubjectNaming
  import opened Text

  /* ---- one part ---- */

  predicate NoSeparator(s: string) { forall i | 0 <= i < |s| :: !IsSeparator(s[i]) }

  lemma OnePart(s: string)
    requires s != "" && NoSeparator(s)
    ensures SplitSeparators(s) == [s]
  {
    assert Dotted(s) == s;
    SplitPlain(s, '.');
    NonEmptyKeeps([s]);
  }

  lemma CamelAllOne(s: string)
    ensures CamelAll([s]) == Camel(s)
  {
    assert [s][..0] == [];
  }

  // A cut falls between two letters, so it leaves no space behind and no wildcard alone.
  predicate WellCut(t: string) { t != "" && Trimmed(t) && t != "*" && t != ">" }

  lemma {:induction false} CamelIsWellCut(s: string, start: nat, i: nat)
    requires start < i <= |s| && !IsSpace(s[start]) && !IsSpace(s[|s| - 1])
    requires if start == 0 then s != "*" && s != ">" else IsUpper(s[start])
    ensures forall k | 0 <= k < |CamelFrom(s, start, i)| :: WellCut(CamelFrom(s, start, i)[k])
    decreases |s| - i
  {
    if i == |s| {
      var t := s[start..];
      assert t[0] == s[start] && t[|t| - 1] == s[|s| - 1];
      if start == 0 { assert t == s; }
    } else if Boundary(s, i) {
      var t := s[start..i];
      assert t[0] == s[start] && t[|t| - 1] == s[i - 1];
      CamelIsWellCut(s, i, i + 1);
    } else {
      CamelIsWellCut(s, start, i + 1);
    }
  }

  lemma LowerOf(t: string)
    requires WellCut(t)
    ensures TrimSpace(t) == t && Kept(ToLower(t))
  {
    TrimmedIsFixed(t);
    if |t| == 1 { assert ToLower(t)[0] == LowerChar(t[0]) && t == [t[0]]; }
  }

  lemma {:induction false} LowerKeptPointwise(parts: seq<string>)
    requires forall k | 0 <= k < |parts| :: WellCut(parts[k])
    ensures |LowerKept(parts)| == |parts|
    ensures forall k | 0 <= k < |parts| :: LowerKept(parts)[k] == ToLower(parts[k])
  {
    if parts != [] {
      var n := |parts| - 1;
      LowerKeptPointwise(parts[..n]);
      LowerKeptLast(parts);
      forall k | 0 <= k < n ensures LowerKept(parts)[k] == ToLower(parts[k]) { assert parts[k] == parts[..n][k]; }
    }
  }

  lemma LowerKeptLast(parts: seq<string>)
    requires parts != [] && WellCut(parts[|parts| - 1])
    ensures LowerKept(parts) == LowerKept(parts[..|parts| - 1]) + [ToLower(parts[|parts| - 1])]
  {
    LowerOf(parts[|parts| - 1]);
  }

  lemma {:induction false} ConcatLower(parts: seq<string>, low: seq<string>)
    requires |parts| == |low| && forall k | 0 <= k < |parts| :: low[k] == ToLower(parts[k])
    ensures Concat(low) == ToLower(Concat(parts))
  {
    if parts != [] { ConcatLower(parts[1..], low[1..]); }
  }

  lemma SameCuts(parts: seq<string>, low: seq<string>, p: nat)
    requires |parts| == |low| && forall k | 0 <= k < |parts| :: low[k] == ToLower(parts[k])
    ensures CutAt(parts, 0, p) <==> CutAt(low, 0, p)
  {
    forall k | 0 < k < |parts| ensures |Concat(parts[..k])| == |Concat(low[..k])| {
      ConcatLower(parts[..k], low[..k]);
    }
  }

  lemma PartTokens(s: string)
    requires s != "" && Trimmed(s) && NoSeparator(s) && s != "*" && s != ">"
    ensures |NormalTokens(s)| == |Camel(s)|
    ensures forall k | 0 <= k < |Camel(s)| :: NormalTokens(s)[k] == ToLower(Camel(s)[k])
  {
    TrimmedIsFixed(s);
    OnePart(s);
    CamelAllOne(s);
    CamelIsWellCut(s, 0, 1);
    LowerKeptPointwise(Camel(s));
  }

  // A capital letter begins a word behind a small letter, or behind a capital when a small letter follows.
  predicate WordStarts(s: string, p: nat)
    requires 0 < p < |s|
  {
    && 'A' <= s[p] <= 'Z'
    && ('a' <= s[p - 1] <= 'z' || ('A' <= s[p - 1] <= 'Z' && p + 1 < |s| && 'a' <= s[p + 1] <= 'z'))
  }

  // A part without separators becomes its own text in lower case, cut where a word starts and nowhere else.
  lemma PartIsCut(s: string)
    requires Trimmed(s) && NoSeparator(s) && s != "*" && s != ">"
    ensures Concat(NormalTokens(s)) == ToLower(s)
    ensures forall p | 0 < p < |s| :: CutAt(NormalTokens(s), 0, p) <==> WordStarts(s, p)
  {
    if s == "" {
      NothingIsEmitted(s);
    } else {
      PartTokens(s);
      CamelConserves(s);
      ConcatLower(Camel(s), NormalTokens(s));
      forall p | 0 < p < |s| ensures CutAt(NormalTokens(s), 0, p) <==> WordStarts(s, p) {
        SameCuts(Camel(s), NormalTokens(s), p);
        CamelCutsExactly(s, p);
      }
    }
  }

  // Blank subjects and bare wildcards leave nothing.
  lemma NothingIsEmitted(s: string)
    requires TrimSpace(s) in ["", "*", ">"]
    ensures NormalTokens(s) == []
  {
    var t := TrimSpace(s);
    if t == "" {
      assert Split(Dotted(""), '.') == [""] && NonEmpty([""]) == [];
    } else {
      OnePart(t);
      CamelAllOne(t);
      assert Camel(t) == [t] && [t][..0] == [];
      TrimmedIsFixed(t);
      assert ToLower(t) == t;
    }
  }

  /* ---- several parts ---- */

  lemma {:induction false} SplitConcat(a: string, b: string)
    ensures Split(a + ['.'] + b, '.') == Split(a, '.') + Split(b, '.')
  {
    var s := a + ['.'] + b;
    if a == "" {
      assert s[1..] == b;
    } else {
      assert s[1..] == a[1..] + ['.'] + b;
      SplitConcat(a[1..], b);
    }
  }

  lemma {:induction false} NonEmptyConcat(a: seq<string>, b: seq<string>)
    ensures NonEmpty(a + b) == NonEmpty(a) + NonEmpty(b)
  {
    if b == [] {
      assert a + b == a;
    } else {
      var n := |b| - 1;
      assert (a + b)[..|a + b| - 1] == a + b[..n];
      NonEmptyConcat(a, b[..n]);
    }
  }

  lemma {:induction false} CamelAllConcat(a: seq<string>, b: seq<string>)
    ensures CamelAll(a + b) == CamelAll(a) + CamelAll(b)
  {
    if b == [] {
      assert a + b == a;
    } else {
      var n := |b| - 1;
      assert (a + b)[..|a + b| - 1] == a + b[..n];
      CamelAllConcat(a, b[..n]);
    }
  }

  lemma {:induction false} LowerKeptConcat(a: seq<string>, b: seq<string>)
    ensures LowerKept(a + b) == LowerKept(a) + LowerKept(b)
  {
    if b == [] {
      assert a + b == a;
    } else {
      var n := |b| - 1;
      assert (a + b)[..|a + b| - 1] == a + b[..n];
      LowerKeptConcat(a, b[..n]);
    }
  }

  lemma SplitSeparatorsConcat(a: string, c: char, b: string)
    requires IsSeparator(c)
    ensures SplitSeparators(a + [c] + b) == SplitSeparators(a) + SplitSeparators(b)
  {
    assert Dotted(a + [c] + b) == Dotted(a) + ['.'] + Dotted(b);
    SplitConcat(Dotted(a), Dotted(b));
    NonEmptyConcat(Split(Dotted(a), '.'), Split(Dotted(b), '.'));
  }

  // A separator, whichever of the three it is, ends a token and begins the next.
  lemma SeparatorsSplit(a: string, c: char, b: string)
    requires IsSeparator(c) && Trimmed(a) && Trimmed(b)
    ensures NormalTokens(a + [c] + b) == NormalTokens(a) + NormalTokens(b)
  {
    assert Trimmed(a + [c] + b);
    TrimmedIsFixed(a + [c] + b);
    TrimmedIsFixed(a);
    TrimmedIsFixed(b);
    SplitSeparatorsConcat(a, c, b);
    CamelAllConcat(SplitSeparators(a), SplitSeparators(b));
    LowerKeptConcat(CamelAll(SplitSeparators(a)), CamelAll(SplitSeparators(b)));
  }

  lemma OuterSpaceIsIgnored(s: string)
    ensures NormalTokens(s) == NormalTokens(TrimSpace(s))
  {
    TrimmedIsFixed(TrimSpace(s));
  }

  /* ---- plurals and actions ---- */

  // The plural of a word that does not end in s is taken back, and nothing else is touched.
  lemma SingularExactly(t: string)
    ensures t != "" && t[|t| - 1] != 's' ==> Singularize(t + "s") == t && Singularize(t) == t
    ensures t != "" ==> Singularize(t + "ss") == t + "ss"
    ensures Singularize(t) == t || t == Singularize(t) + "s"
  {}

  // The synonyms of the three actions; every other normal token stands for itself.
  lemma ActionsExactly(t: string)
    requires GoodToken(t)
    ensures t in ["created", "new", "added", "insert", "inserted"] <==> CanonicalizeAction(t) == "created"
    ensures t in ["updated", "changed", "modified", "patched"] <==> CanonicalizeAction(t) == "updated"
    ensures t in ["deleted", "removed", "cancelled", "canceled"] <==> CanonicalizeAction(t) == "deleted"
    ensures CanonicalizeAction(t) in ["created", "updated", "deleted"] || CanonicalizeAction(t) == t
  {
    GoodTokenIsFixed(t);
  }
}
