/** From stream and consumer subjects, through genome clusters and findings, to related events. */
module GenomeRelations {
  import opened Text
  import opened SubjectNaming

  // Occurrences are grouped by genome key, every group with two or more spellings yields findings, and the
  // findings are turned back into a list of peers for each subject. Go visits maps in any order, and so does
  // this model.

  const NUL := 0 as char

  datatype Consumer = Consumer(name: string, filter: string, filters: seq<string>)
  datatype Stream = Stream(name: string, subjects: seq<string>, consumers: seq<Consumer>)
  datatype Occurrence = Occurrence(stream: string, consumer: string, subject: string)
  datatype Finding = Finding(genome: string, subject: string, suggested: string, cluster: seq<string>,
                             stream: string, consumer: string)

  /* ---- the inventory ---- */

  predicate HasWildcard(s: string) { "*" in Split(s, '.') || ">" in Split(s, '.') }

  predicate Plain(t: string) { t != "" && !HasWildcard(t) }

  function FromSubjects(stream: string, consumer: string, subjects: seq<string>): seq<Occurrence> {
    if subjects == [] then []
    else
      var n := |subjects| - 1;
      var t := TrimSpace(subjects[n]);
      FromSubjects(stream, consumer, subjects[..n])
      + if Plain(t) then [Occurrence(stream, consumer, t)] else []
  }

  function FromConsumers(stream: string, consumers: seq<Consumer>): seq<Occurrence> {
    if consumers == [] then []
    else
      var n := |consumers| - 1;
      FromConsumers(stream, consumers[..n])
      + FromConsumer(stream, consumers[n])
  }

  function FromStreams(inputs: seq<Stream>): seq<Occurrence> {
    if inputs == [] then []
    else
      var n := |inputs| - 1;
      FromStreams(inputs[..n]) + FromStream(inputs[n])
  }

  function Key(o: Occurrence): string { o.stream + [NUL] + o.consumer + [NUL] + o.subject }

  function Keys(occ: seq<Occurrence>): set<string> { set o | o in occ :: Key(o) }

  // The first occurrence of every key.
  function Dedupe(occ: seq<Occurrence>): seq<Occurrence> {
    if occ == [] then []
    else
      var n := |occ| - 1;
      Dedupe(occ[..n]) + if Key(occ[n]) in Keys(occ[..n]) then [] else [occ[n]]
  }

  function Occurrences(inputs: seq<Stream>): seq<Occurrence> { Dedupe(FromStreams(inputs)) }

  lemma FromSubjectsSnoc(stream: string, consumer: string, subjects: seq<string>, i: nat, done: seq<Occurrence>)
    requires i < |subjects|
    ensures done + FromSubjects(stream, consumer, subjects[..i + 1])
         == var t := TrimSpace(subjects[i]);
            done + FromSubjects(stream, consumer, subjects[..i])
            + if Plain(t) then [Occurrence(stream, consumer, t)] else []
  {
    assert subjects[..i + 1][..i] == subjects[..i];
  }

  method NoteSubjects(stream: string, consumer: string, subjects: seq<string>, ghost done: seq<Occurrence>,
                      occ0: seq<Occurrence>, seen0: set<string>)
    returns (occ: seq<Occurrence>, seen: set<string>)
    requires occ0 == Dedupe(done) && seen0 == Keys(done)
    ensures occ == Dedupe(done + FromSubjects(stream, consumer, subjects))
    ensures seen == Keys(done + FromSubjects(stream, consumer, subjects))
  {
    occ, seen := occ0, seen0;
    assert done + [] == done;
    ghost var now := done;
    for i := 0 to |subjects|
      invariant now == done + FromSubjects(stream, consumer, subjects[..i])
      invariant occ == Dedupe(now) && seen == Keys(now)
    {
      FromSubjectsSnoc(stream, consumer, subjects, i, done);
      var t := TrimSpace(subjects[i]);
      if t == "" || HasWildcard(t) {
        assert now + [] == now;
        continue;
      }
      var o := Occurrence(stream, consumer, t);
      DedupeSnoc(now, o);
      now := now + [o];
      if Key(o) !in seen {
        seen := seen + {Key(o)};
        occ := occ + [o];
      }
    }
    assert subjects[..|subjects|] == subjects;
  }

  lemma DedupeSnoc(occ: seq<Occurrence>, o: Occurrence)
    ensures Dedupe(occ + [o]) == Dedupe(occ) + if Key(o) in Keys(occ) then [] else [o]
    ensures Keys(occ + [o]) == Keys(occ) + {Key(o)}
  {
    assert (occ + [o])[..|occ|] == occ;
    forall k | k in Keys(occ) ensures k in Keys(occ + [o]) {
      var p :| p in occ && Key(p) == k;
      assert p in occ + [o];
    }
    assert o in occ + [o];
  }

  function FromConsumer(stream: string, c: Consumer): seq<Occurrence> {
    FromSubjects(stream, TrimSpace(c.name), [c.filter] + c.filters)
  }

  lemma FromConsumersSnoc(stream: string, consumers: seq<Consumer>, j: nat, done: seq<Occurrence>)
    requires j < |consumers|
    ensures done + FromConsumers(stream, consumers[..j + 1])
         == done + FromConsumers(stream, consumers[..j]) + FromConsumer(stream, consumers[j])
  {
    assert consumers[..j + 1][..j] == consumers[..j];
  }

  method NoteConsumers(stream: string, consumers: seq<Consumer>, ghost done: seq<Occurrence>,
                       occ0: seq<Occurrence>, seen0: set<string>)
    returns (occ: seq<Occurrence>, seen: set<string>)
    requires occ0 == Dedupe(done) && seen0 == Keys(done)
    ensures occ == Dedupe(done + FromConsumers(stream, consumers))
    ensures seen == Keys(done + FromConsumers(stream, consumers))
  {
    occ, seen := occ0, seen0;
    assert done + [] == done;
    ghost var now := done;
    for j := 0 to |consumers|
      invariant now == done + FromConsumers(stream, consumers[..j])
      invariant occ == Dedupe(now) && seen == Keys(now)
    {
      FromConsumersSnoc(stream, consumers, j, done);
      var c := consumers[j];
      occ, seen := NoteSubjects(stream, TrimSpace(c.name), [c.filter] + c.filters, now, occ, seen);
      now := now + FromConsumer(stream, c);
    }
    assert consumers[..|consumers|] == consumers;
  }

  function FromStream(s: Stream): seq<Occurrence> {
    FromSubjects(TrimSpace(s.name), "", s.subjects) + FromConsumers(TrimSpace(s.name), s.consumers)
  }

  lemma FromStreamsSnoc(inputs: seq<Stream>, i: nat)
    requires i < |inputs|
    ensures FromStreams(inputs[..i + 1]) == FromStreams(inputs[..i]) + FromStream(inputs[i])
  {
    assert inputs[..i + 1][..i] == inputs[..i];
  }

  lemma Associate<T>(a: seq<T>, b: seq<T>, c: seq<T>)
    ensures a + b + c == a + (b + c)
  {}

  method NoteStream(s: Stream, ghost done: seq<Occurrence>, occ0: seq<Occurrence>, seen0: set<string>)
    returns (occ: seq<Occurrence>, seen: set<string>)
    requires occ0 == Dedupe(done) && seen0 == Keys(done)
    ensures occ == Dedupe(done + FromStream(s)) && seen == Keys(done + FromStream(s))
  {
    var name := TrimSpace(s.name);
    ghost var own, more := FromSubjects(name, "", s.subjects), FromConsumers(name, s.consumers);
    Associate(done, own, more);
    occ, seen := NoteSubjects(name, "", s.subjects, done, occ0, seen0);
    occ, seen := NoteConsumers(name, s.consumers, done + own, occ, seen);
  }

  method CollectOccurrences(inputs: seq<Stream>) returns (occ: seq<Occurrence>)
    ensures occ == Occurrences(inputs)
  {
    occ := [];
    var seen: set<string> := {};
    ghost var now := [];
    for i := 0 to |inputs|
      invariant now == FromStreams(inputs[..i])
      invariant occ == Dedupe(now) && seen == Keys(now)
    {
      FromStreamsSnoc(inputs, i);
      occ, seen := NoteStream(inputs[i], now, occ, seen);
      now := now + FromStream(inputs[i]);
    }
    assert inputs[..|inputs|] == inputs;
  }

  predicate CleanOccurrence(o: Occurrence) { o.subject != "" && Trimmed(o.subject) && !HasWildcard(o.subject) }

  predicate Clean(occ: seq<Occurrence>) { forall o | o in occ :: CleanOccurrence(o) }

  lemma {:induction false} FromSubjectsClean(stream: string, consumer: string, subjects: seq<string>)
    ensures Clean(FromSubjects(stream, consumer, subjects))
  {
    if subjects != [] { FromSubjectsClean(stream, consumer, subjects[..|subjects| - 1]); }
  }

  lemma {:induction false} FromConsumersClean(stream: string, consumers: seq<Consumer>)
    ensures Clean(FromConsumers(stream, consumers))
  {
    if consumers != [] {
      var c := consumers[|consumers| - 1];
      FromConsumersClean(stream, consumers[..|consumers| - 1]);
      FromSubjectsClean(stream, TrimSpace(c.name), [c.filter] + c.filters);
    }
  }

  lemma {:induction false} FromStreamsClean(inputs: seq<Stream>)
    ensures Clean(FromStreams(inputs))
  {
    if inputs != [] {
      var s := inputs[|inputs| - 1];
      FromStreamsClean(inputs[..|inputs| - 1]);
      FromSubjectsClean(TrimSpace(s.name), "", s.subjects);
      FromConsumersClean(TrimSpace(s.name), s.consumers);
    }
  }

  lemma {:induction false} DedupeIn(occ: seq<Occurrence>, o: Occurrence)
    requires o in Dedupe(occ)
    ensures o in occ
  {
    var n := |occ| - 1;
    if o in Dedupe(occ[..n]) { DedupeIn(occ[..n], o); }
  }

  lemma {:induction false} DedupeKeeps(occ: seq<Occurrence>, o: Occurrence) returns (p: Occurrence)
    requires o in occ
    ensures p in Dedupe(occ) && Key(p) == Key(o)
  {
    var n := |occ| - 1;
    if o in occ[..n] {
      p := DedupeKeeps(occ[..n], o);
    } else if Key(o) in Keys(occ[..n]) {
      var q :| q in occ[..n] && Key(q) == Key(o);
      p := DedupeKeeps(occ[..n], q);
    } else {
      p := o;
    }
  }

  function AfterLastNul(s: string): string {
    if s == "" || s[|s| - 1] == NUL then "" else AfterLastNul(s[..|s| - 1]) + [s[|s| - 1]]
  }

  lemma {:induction false} LastField(a: string, x: string)
    requires NUL !in x
    ensures AfterLastNul(a + [NUL] + x) == x
  {
    var s := a + [NUL] + x;
    if x != "" {
      var n := |x| - 1;
      assert s[..|s| - 1] == a + [NUL] + x[..n];
      LastField(a, x[..n]);
      assert x == x[..n] + [x[n]];
    }
  }

  predicate Listed(occ: seq<Occurrence>, s: string) { exists o :: o in occ && o.subject == s }

  predicate Names(subjects: seq<string>, t: string) { exists r :: r in subjects && TrimSpace(r) == t }

  predicate ConsumerNames(c: Consumer, t: string) { Names([c.filter] + c.filters, t) }

  predicate AnyConsumerNames(consumers: seq<Consumer>, t: string) { exists c :: c in consumers && ConsumerNames(c, t) }

  predicate StreamNames(s: Stream, t: string) { Names(s.subjects, t) || AnyConsumerNames(s.consumers, t) }

  // A subject of some stream, or a filter of some consumer, reads t once trimmed.
  predicate AnyStreamNames(inputs: seq<Stream>, t: string) { exists s :: s in inputs && StreamNames(s, t) }

  lemma ListedConcat(a: seq<Occurrence>, b: seq<Occurrence>, t: string)
    ensures Listed(a + b, t) <==> Listed(a, t) || Listed(b, t)
  {
    if Listed(a, t) { var o :| o in a && o.subject == t; assert o in a + b; }
    if Listed(b, t) { var o :| o in b && o.subject == t; assert o in a + b; }
  }

  lemma {:induction false} SubjectsListed(stream: string, consumer: string, subjects: seq<string>, t: string)
    ensures Listed(FromSubjects(stream, consumer, subjects), t) <==> Plain(t) && Names(subjects, t)
  {
    if subjects != [] {
      var n := |subjects| - 1;
      var u := TrimSpace(subjects[n]);
      SubjectsListed(stream, consumer, subjects[..n], t);
      ListedConcat(FromSubjects(stream, consumer, subjects[..n]), [Occurrence(stream, consumer, u)], t);
      assert Occurrence(stream, consumer, u) in [Occurrence(stream, consumer, u)];
      assert subjects == subjects[..n] + [subjects[n]];
      assert Names(subjects, t) <==> Names(subjects[..n], t) || u == t;
    }
  }

  lemma {:induction false} ConsumersListed(stream: string, consumers: seq<Consumer>, t: string)
    ensures Listed(FromConsumers(stream, consumers), t) <==> Plain(t) && AnyConsumerNames(consumers, t)
  {
    if consumers != [] {
      var n := |consumers| - 1;
      var c := consumers[n];
      ConsumersListed(stream, consumers[..n], t);
      SubjectsListed(stream, TrimSpace(c.name), [c.filter] + c.filters, t);
      ListedConcat(FromConsumers(stream, consumers[..n]), FromConsumer(stream, c), t);
      assert consumers == consumers[..n] + [c];
      assert AnyConsumerNames(consumers, t) <==> AnyConsumerNames(consumers[..n], t) || ConsumerNames(c, t);
    }
  }

  lemma StreamListed(s: Stream, t: string)
    ensures Listed(FromStream(s), t) <==> Plain(t) && StreamNames(s, t)
  {
    var name := TrimSpace(s.name);
    SubjectsListed(name, "", s.subjects, t);
    ConsumersListed(name, s.consumers, t);
    ListedConcat(FromSubjects(name, "", s.subjects), FromConsumers(name, s.consumers), t);
  }

  lemma {:induction false} StreamsListed(inputs: seq<Stream>, t: string)
    ensures Listed(FromStreams(inputs), t) <==> Plain(t) && AnyStreamNames(inputs, t)
  {
    if inputs != [] {
      var n := |inputs| - 1;
      StreamsListed(inputs[..n], t);
      StreamListed(inputs[n], t);
      ListedConcat(FromStreams(inputs[..n]), FromStream(inputs[n]), t);
      assert inputs == inputs[..n] + [inputs[n]];
      assert AnyStreamNames(inputs, t) <==> AnyStreamNames(inputs[..n], t) || StreamNames(inputs[n], t);
    }
  }

  predicate FirstOfKey(occ: seq<Occurrence>, i: nat) {
    i < |occ| && forall j | 0 <= j < i :: Key(occ[j]) != Key(occ[i])
  }

  // s is the subject of an occurrence that no earlier one shares its key with.
  ghost predicate OpensAKey(occ: seq<Occurrence>, s: string) {
    exists i: nat :: FirstOfKey(occ, i) && occ[i].subject == s
  }

  lemma {:induction false} DedupeExactly(occ: seq<Occurrence>, s: string)
    ensures Listed(Dedupe(occ), s) <==> OpensAKey(occ, s)
  {
    if occ != [] {
      var n := |occ| - 1;
      DedupeExactly(occ[..n], s);
      OpensASnoc(occ[..n], occ[n], s);
      assert occ == occ[..n] + [occ[n]];
      ListedConcat(Dedupe(occ[..n]), [occ[n]], s);
      assert occ[n] in [occ[n]];
    }
  }

  lemma OpensASnoc(occ: seq<Occurrence>, o: Occurrence, s: string)
    ensures OpensAKey(occ + [o], s) <==> OpensAKey(occ, s) || (Key(o) !in Keys(occ) && o.subject == s)
  {
    var all := occ + [o];
    assert Key(o) in Keys(occ) <==> !FirstOfKey(all, |occ|) by {
      if Key(o) in Keys(occ) {
        var q :| q in occ && Key(q) == Key(o);
        var j :| 0 <= j < |occ| && occ[j] == q;
        assert all[j] == q;
      } else {
        forall j | 0 <= j < |occ| ensures Key(all[j]) != Key(o) { assert all[j] in occ; }
      }
    }
    if OpensAKey(occ, s) {
      var i: nat :| FirstOfKey(occ, i) && occ[i].subject == s;
      assert FirstOfKey(all, i);
    }
    forall i: nat | FirstOfKey(all, i) && i < |occ| ensures FirstOfKey(occ, i) {
      forall j | 0 <= j < i ensures Key(occ[j]) != Key(occ[i]) { assert all[j] == occ[j]; }
    }
  }

  // A named subject is listed exactly if it opens a key. Keys are glued with NUL, so a name that holds NUL
  // can hide another subject: stream a with subject NUL x hides x of stream a NUL.
  lemma InventoryExactly(inputs: seq<Stream>, s: string)
    ensures Listed(Occurrences(inputs), s) <==> OpensAKey(FromStreams(inputs), s)
  {
    DedupeExactly(FromStreams(inputs), s);
  }

  predicate PlainToken(t: string) { Trimmed(t) && t != "" && '.' !in t && t != "*" && t != ">" }

  lemma PlainTokenIsPlain(t: string)
    requires PlainToken(t)
    ensures Plain(t) && TrimSpace(t) == t
  {
    TrimmedIsFixed(t);
    SplitPlain(t, '.');
  }

  lemma OnePlainSubject(name: string, t: string)
    requires Trimmed(name) && PlainToken(t)
    ensures FromStream(Stream(name, [t], [])) == [Occurrence(name, "", t)]
  {
    TrimmedIsFixed(name);
    PlainTokenIsPlain(t);
    assert [t][..0] == [];
    assert FromSubjects(name, "", []) == [];
  }

  lemma OneMoreStream(inputs: seq<Stream>, s: Stream)
    ensures FromStreams(inputs + [s]) == FromStreams(inputs) + FromStream(s)
  {
    assert (inputs + [s])[..|inputs|] == inputs;
  }

  lemma TwoStreams(a: Stream, b: Stream)
    ensures FromStreams([a, b]) == FromStream(a) + FromStream(b)
  {
    var none: seq<Stream> := [];
    OneMoreStream(none, a);
    OneMoreStream([a], b);
    assert none + [a] == [a] && [a] + [b] == [a, b];
  }

  lemma TwoPlainSubjects(a: Occurrence, b: Occurrence)
    requires Trimmed(a.stream) && PlainToken(a.subject) && a.consumer == ""
    requires Trimmed(b.stream) && PlainToken(b.subject) && b.consumer == ""
    ensures FromStreams([Stream(a.stream, [a.subject], []), Stream(b.stream, [b.subject], [])]) == [a, b]
  {
    OnePlainSubject(a.stream, a.subject);
    OnePlainSubject(b.stream, b.subject);
    TwoStreams(Stream(a.stream, [a.subject], []), Stream(b.stream, [b.subject], []));
    assert [a] + [b] == [a, b];
  }

  lemma FirstHidesSecond(occ: seq<Occurrence>, s: string)
    requires |occ| == 2 && Key(occ[0]) == Key(occ[1]) && occ[0].subject != s && occ[1].subject == s
    ensures Listed(occ, s) && !Listed(Dedupe(occ), s)
  {
    DedupeExactly(occ, s);
  }

  lemma SubjectCanBeHidden()
    ensures var inputs := [Stream("a", [[NUL] + "x"], []), Stream("a" + [NUL], ["x"], [])];
            Listed(FromStreams(inputs), "x") && !Listed(Occurrences(inputs), "x")
  {
    var a, b := Occurrence("a", "", [NUL] + "x"), Occurrence("a" + [NUL], "", "x");
    assert a.subject[0] == NUL;
    assert Key(a) == ['a', NUL, NUL, NUL, 'x'] == Key(b);
    TwoPlainSubjects(a, b);
    FirstHidesSecond([a, b], "x");
  }

  // The inventory holds exactly the plain subjects some stream or consumer names. Deduplication hides
  // none of them, for its keys are glued with NUL, which no subject contains.
  lemma InventoryIsComplete(inputs: seq<Stream>, s: string)
    requires forall t | NUL in t :: !AnyStreamNames(inputs, t)
    ensures Listed(Occurrences(inputs), s) <==> Plain(s) && AnyStreamNames(inputs, s)
  {
    StreamsListed(inputs, s);
    NothingHidden(inputs, s);
  }

  lemma NothingHidden(inputs: seq<Stream>, s: string)
    requires forall t | NUL in t :: !AnyStreamNames(inputs, t)
    ensures Listed(Occurrences(inputs), s) <==> Listed(FromStreams(inputs), s)
  {
    forall o | o in FromStreams(inputs) ensures NUL !in o.subject {
      StreamsListed(inputs, o.subject);
      assert Listed(FromStreams(inputs), o.subject);
    }
    var all := FromStreams(inputs);
    if Listed(all, s) {
      var o :| o in all && o.subject == s;
      var p := DedupeKeeps(all, o);
      DedupeIn(all, p);
      LastField(o.stream + [NUL] + o.consumer, o.subject);
      LastField(p.stream + [NUL] + p.consumer, p.subject);
    }
    if Listed(Occurrences(inputs), s) {
      var p :| p in Dedupe(all) && p.subject == s;
      DedupeIn(all, p);
    }
  }

  lemma OccurrencesClean(inputs: seq<Stream>)
    ensures Clean(Occurrences(inputs))
  {
    FromStreamsClean(inputs);
    forall o | o in Occurrences(inputs) ensures CleanOccurrence(o) { DedupeIn(FromStreams(inputs), o); }
  }

  /* ---- findings ---- */

  function MembersBy(occ: seq<Occurrence>, key: string -> string, g: string): seq<Occurrence> {
    if occ == [] then []
    else MembersBy(occ[..|occ| - 1], key, g) + if key(occ[|occ| - 1].subject) == g then [occ[|occ| - 1]] else []
  }

  // The occurrences, and the key that groups them. Nothing below depends on what the key is, except that
  // it has no outer space.
  datatype Inventory = Inventory(occ: seq<Occurrence>, key: string -> string)

  function GenomeInventory(inputs: seq<Stream>): Inventory { Inventory(Occurrences(inputs), GenomeKey) }

  function Members(inv: Inventory, g: string): seq<Occurrence> { MembersBy(inv.occ, inv.key, g) }

  function Literals(members: seq<Occurrence>): seq<string> {
    if members == [] then []
    else
      var rest := Literals(members[..|members| - 1]);
      if members[|members| - 1].subject in rest then rest else rest + [members[|members| - 1].subject]
  }

  function FindingsIn(members: seq<Occurrence>, g: string, literals: seq<string>, suggested: string): seq<Finding> {
    if members == [] then []
    else
      var o := members[|members| - 1];
      FindingsIn(members[..|members| - 1], g, literals, suggested)
      + if o.subject == suggested then [] else [Finding(g, o.subject, suggested, literals, o.stream, o.consumer)]
  }

  function Spellings(inv: Inventory, g: string): seq<string> { Literals(Members(inv, g)) }

  function FindingsOf(inv: Inventory, g: string, suggest: seq<string> -> string): seq<Finding> {
    var lits := Spellings(inv, g);
    if |lits| < 2 then [] else FindingsIn(Members(inv, g), g, lits, suggest(lits))
  }

  function FindingsInOrder(inv: Inventory, order: seq<string>, suggest: seq<string> -> string): seq<Finding> {
    if order == [] then []
    else FindingsInOrder(inv, order[..|order| - 1], suggest) + FindingsOf(inv, order[|order| - 1], suggest)
  }

  function ClusterCount(inv: Inventory, order: seq<string>): nat {
    if order == [] then 0
    else ClusterCount(inv, order[..|order| - 1]) + if |Spellings(inv, order[|order| - 1])| < 2 then 0 else 1
  }

  predicate Distinct(s: seq<string>) { forall i, j | 0 <= i < j < |s| :: s[i] != s[j] }

  lemma DistinctSnoc(s: seq<string>, t: string)
    requires Distinct(s) && t !in s
    ensures Distinct(s + [t])
  {}

  ghost predicate OrderOf(inv: Inventory, order: seq<string>) {
    Distinct(order) && forall g :: g in order <==> g != "" && Members(inv, g) != []
  }

  ghost predicate GroupIs(inv: Inventory, groups: map<string, seq<Occurrence>>, g: string) {
    (g in groups <==> g != "" && Members(inv, g) != []) && (g in groups ==> groups[g] == Members(inv, g))
  }

  ghost predicate Grouped(inv: Inventory, groups: map<string, seq<Occurrence>>) { forall g :: GroupIs(inv, groups, g) }

  lemma {:induction false} MembersSnoc(occ: seq<Occurrence>, key: string -> string, o: Occurrence, g: string)
    ensures MembersBy(occ + [o], key, g) == MembersBy(occ, key, g) + if key(o.subject) == g then [o] else []
  {
    assert (occ + [o])[..|occ|] == occ;
  }

  lemma GroupedSnoc(occ: seq<Occurrence>, key: string -> string, o: Occurrence, groups: map<string, seq<Occurrence>>)
    requires Grouped(Inventory(occ, key), groups)
    ensures var fp := key(o.subject);
            Grouped(Inventory(occ + [o], key),
                    if fp == "" then groups else groups[fp := (if fp in groups then groups[fp] else []) + [o]])
  {
    var fp := key(o.subject);
    var more := if fp == "" then groups else groups[fp := (if fp in groups then groups[fp] else []) + [o]];
    forall g ensures GroupIs(Inventory(occ + [o], key), more, g) {
      assert GroupIs(Inventory(occ, key), groups, g);
      MembersSnoc(occ, key, o, g);
    }
  }

  method GroupByGenome(occ: seq<Occurrence>) returns (groups: map<string, seq<Occurrence>>)
    ensures Grouped(Inventory(occ, GenomeKey), groups)
  {
    groups := map[];
    for i := 0 to |occ|
      invariant Grouped(Inventory(occ[..i], GenomeKey), groups)
    {
      assert occ[..i + 1] == occ[..i] + [occ[i]];
      GroupedSnoc(occ[..i], GenomeKey, occ[i], groups);
      var fp := GenomeKey(occ[i].subject);
      if fp == "" { continue; }
      groups := groups[fp := (if fp in groups then groups[fp] else []) + [occ[i]]];
    }
    assert occ[..|occ|] == occ;
  }

  method UniqueLiterals(members: seq<Occurrence>) returns (out: seq<string>)
    ensures out == Literals(members)
  {
    out := [];
    var seen: set<string> := {};
    for i := 0 to |members|
      invariant out == Literals(members[..i]) && seen == set t | t in out
    {
      assert members[..i + 1][..i] == members[..i];
      if members[i].subject in seen { continue; }
      seen := seen + {members[i].subject};
      out := out + [members[i].subject];
    }
    assert members[..|members|] == members;
  }

  lemma InOrderSnoc(inv: Inventory, order: seq<string>, g: string, suggest: seq<string> -> string)
    ensures FindingsInOrder(inv, order + [g], suggest)
            == FindingsInOrder(inv, order, suggest) + FindingsOf(inv, g, suggest)
    ensures ClusterCount(inv, order + [g]) == ClusterCount(inv, order) + if |Spellings(inv, g)| < 2 then 0 else 1
  {
    assert (order + [g])[..|order|] == order;
  }

  // The findings and the number of clusters when the groups are visited in this order.
  ghost predicate Analysis(inv: Inventory, suggest: seq<string> -> string, order: seq<string>, findings: seq<Finding>,
                           clusters: nat) {
    OrderOf(inv, order) && findings == FindingsInOrder(inv, order, suggest) && clusters == ClusterCount(inv, order)
  }

  method AnalyzeEventGenome(inputs: seq<Stream>, suggest: seq<string> -> string)
    returns (findings: seq<Finding>, clusters: nat)
    ensures exists order :: Analysis(GenomeInventory(inputs), suggest, order, findings, clusters)
  {
    var occ := CollectOccurrences(inputs);
    var groups := GroupByGenome(occ);
    ghost var inv := GenomeInventory(inputs);
    GroupsAreMembers(inv, groups);
    ghost var order;
    findings, clusters, order := ReportGroups(inv, groups, suggest);
    OrderVisitsGroups(inv, groups, order);
    assert Analysis(inv, suggest, order, findings, clusters);
  }

  lemma GroupsAreMembers(inv: Inventory, groups: map<string, seq<Occurrence>>)
    requires Grouped(inv, groups)
    ensures forall g | g in groups :: groups[g] == Members(inv, g)
  {
    forall g | g in groups ensures groups[g] == Members(inv, g) { assert GroupIs(inv, groups, g); }
  }

  lemma OrderVisitsGroups(inv: Inventory, groups: map<string, seq<Occurrence>>, order: seq<string>)
    requires Grouped(inv, groups) && Distinct(order) && forall g :: g in order <==> g in groups
    ensures OrderOf(inv, order)
  {
    forall g ensures g in order <==> g != "" && Members(inv, g) != [] { assert GroupIs(inv, groups, g); }
  }

  method ReportGroups(ghost inv: Inventory, groups: map<string, seq<Occurrence>>, suggest: seq<string> -> string)
    returns (findings: seq<Finding>, clusters: nat, ghost order: seq<string>)
    requires forall g | g in groups :: groups[g] == Members(inv, g)
    ensures Distinct(order) && forall g :: g in order <==> g in groups
    ensures findings == FindingsInOrder(inv, order, suggest)
    ensures clusters == ClusterCount(inv, order)
  {
    findings, clusters, order := [], 0, [];
    var todo := groups.Keys;
    while todo != {}
      invariant Distinct(order) && todo <= groups.Keys
      invariant forall g :: g in order <==> g in groups.Keys - todo
      invariant findings == FindingsInOrder(inv, order, suggest)
      invariant clusters == ClusterCount(inv, order)
      decreases |todo|
    {
      var genome :| genome in todo;
      DistinctSnoc(order, genome);
      InOrderSnoc(inv, order, genome, suggest);
      todo := todo - {genome};
      order := order + [genome];
      var own, counted := ReportGroup(inv, genome, groups[genome], suggest);
      findings := findings + own;
      clusters := clusters + counted;
    }
  }

  method ReportGroup(ghost inv: Inventory, genome: string, members: seq<Occurrence>, suggest: seq<string> -> string)
    returns (findings: seq<Finding>, counted: nat)
    requires members == Members(inv, genome)
    ensures findings == FindingsOf(inv, genome, suggest)
    ensures counted == if |Spellings(inv, genome)| < 2 then 0 else 1
  {
    var literals := UniqueLiterals(members);
    if |literals| < 2 { return [], 0; }
    findings := ReportMembers(members, genome, literals, suggest(literals));
    counted := 1;
  }

  method ReportMembers(members: seq<Occurrence>, genome: string, literals: seq<string>, suggested: string)
    returns (findings: seq<Finding>)
    ensures findings == FindingsIn(members, genome, literals, suggested)
  {
    findings := [];
    for i := 0 to |members|
      invariant findings == FindingsIn(members[..i], genome, literals, suggested)
    {
      assert members[..i + 1][..i] == members[..i];
      if members[i].subject == suggested { continue; }
      findings := findings + [Finding(genome, members[i].subject, suggested, literals, members[i].stream,
                                      members[i].consumer)];
    }
    assert members[..|members|] == members;
  }

  /* ---- peers ---- */

  function CleanPeers(cluster: seq<string>): seq<string> {
    if cluster == [] then []
    else
      var rest := CleanPeers(cluster[..|cluster| - 1]);
      var peer := TrimSpace(cluster[|cluster| - 1]);
      if peer == "" || peer in rest then rest else rest + [peer]
  }

  function ClusterKey(f: Finding): string {
    if TrimSpace(f.genome) == "" then TrimSpace(f.subject) else TrimSpace(f.genome)
  }

  function ClusterMap(findings: seq<Finding>): map<string, seq<string>> {
    if findings == [] then map[]
    else
      var m := ClusterMap(findings[..|findings| - 1]);
      var f := findings[|findings| - 1];
      if ClusterKey(f) == "" || ClusterKey(f) in m || |CleanPeers(f.cluster)| < 2 then m
      else m[ClusterKey(f) := CleanPeers(f.cluster)]
  }

  function Peers(literals: seq<string>, subject: string): seq<string> {
    if literals == [] then []
    else Peers(literals[..|literals| - 1], subject)
         + if literals[|literals| - 1] != subject then [literals[|literals| - 1]] else []
  }

  ghost predicate InCluster(clusters: map<string, seq<string>>, k: string, s: string) {
    k in clusters && s in clusters[k]
  }

  // A subject in several clusters is listed with the peers of one of them.
  ghost predicate PeersOfOne(clusters: map<string, seq<string>>, s: string, peers: seq<string>) {
    exists k :: InCluster(clusters, k, s) && peers == Peers(clusters[k], s)
  }

  ghost predicate RelatedBy(clusters: map<string, seq<string>>, related: map<string, seq<string>>) {
    && (forall k, s :: InCluster(clusters, k, s) ==> s in related)
    && (forall s | s in related :: PeersOfOne(clusters, s, related[s]))
  }

  method GenomeRelatedBySubject(findings: seq<Finding>) returns (related: map<string, seq<string>>)
    ensures RelatedBy(ClusterMap(findings), related)
  {
    var clusters := BuildClusters(findings);
    related := map[];
    var todo := clusters.Keys;
    while todo != {}
      invariant todo <= clusters.Keys
      invariant forall k, s :: InCluster(clusters, k, s) && k !in todo ==> s in related
      invariant forall s | s in related :: PeersOfOne(clusters, s, related[s])
      decreases |todo|
    {
      var k :| k in todo;
      todo := todo - {k};
      related := RelateCluster(clusters, k, clusters[k], related);
    }
  }

  method RelateCluster(ghost clusters: map<string, seq<string>>, ghost k: string, literals: seq<string>,
                       related0: map<string, seq<string>>)
    returns (related: map<string, seq<string>>)
    requires k in clusters && literals == clusters[k]
    requires forall s | s in related0 :: PeersOfOne(clusters, s, related0[s])
    ensures forall s | s in related :: PeersOfOne(clusters, s, related[s])
    ensures related.Keys == related0.Keys + set s | s in literals
  {
    related := related0;
    for i := 0 to |literals|
      invariant related.Keys == related0.Keys + set s | s in literals[..i]
      invariant forall s | s in related :: PeersOfOne(clusters, s, related[s])
    {
      var subject := literals[i];
      var peers := OtherPeers(literals, subject);
      assert InCluster(clusters, k, subject);
      assert literals[..i + 1] == literals[..i] + [subject];
      related := related[subject := peers];
    }
    assert literals[..|literals|] == literals;
  }

  method OtherPeers(literals: seq<string>, subject: string) returns (peers: seq<string>)
    ensures peers == Peers(literals, subject)
  {
    peers := [];
    for i := 0 to |literals|
      invariant peers == Peers(literals[..i], subject)
    {
      assert literals[..i + 1][..i] == literals[..i];
      if literals[i] != subject { peers := peers + [literals[i]]; }
    }
    assert literals[..|literals|] == literals;
  }

  method TrimmedPeers(cluster: seq<string>) returns (literals: seq<string>)
    ensures literals == CleanPeers(cluster)
  {
    literals := [];
    var seen: set<string> := {};
    for i := 0 to |cluster|
      invariant literals == CleanPeers(cluster[..i]) && seen == set t | t in literals
    {
      assert cluster[..i + 1][..i] == cluster[..i];
      var peer := TrimSpace(cluster[i]);
      if peer == "" || peer in seen { continue; }
      seen := seen + {peer};
      literals := literals + [peer];
    }
    assert cluster[..|cluster|] == cluster;
  }

  method BuildClusters(findings: seq<Finding>) returns (clusters: map<string, seq<string>>)
    ensures clusters == ClusterMap(findings)
  {
    clusters := map[];
    for i := 0 to |findings|
      invariant clusters == ClusterMap(findings[..i])
    {
      assert findings[..i + 1][..i] == findings[..i];
      var f := findings[i];
      var key := TrimSpace(f.genome);
      if key == "" { key := TrimSpace(f.subject); }
      if key == "" || key in clusters { continue; }
      var literals := TrimmedPeers(f.cluster);
      if |literals| >= 2 { clusters := clusters[key := literals]; }
    }
    assert findings[..|findings|] == findings;
  }

  /* ---- what comes out ---- */

  lemma {:induction false} MembersByIn(occ: seq<Occurrence>, key: string -> string, g: string, o: Occurrence)
    ensures o in MembersBy(occ, key, g) <==> o in occ && key(o.subject) == g
  {
    if occ != [] {
      MembersByIn(occ[..|occ| - 1], key, g, o);
      assert occ == occ[..|occ| - 1] + [occ[|occ| - 1]];
    }
  }

  lemma MembersIn(inv: Inventory, g: string, o: Occurrence)
    ensures o in Members(inv, g) <==> o in inv.occ && inv.key(o.subject) == g
  {
    MembersByIn(inv.occ, inv.key, g, o);
  }

  lemma {:induction false} LiteralsIn(members: seq<Occurrence>, t: string)
    ensures t in Literals(members) <==> Listed(members, t)
  {
    if members != [] {
      var n := |members| - 1;
      LiteralsIn(members[..n], t);
      if Listed(members[..n], t) { var o :| o in members[..n] && o.subject == t; assert o in members; }
      assert members[n] in members;
    }
  }

  lemma {:induction false} LiteralsDistinct(members: seq<Occurrence>)
    ensures Distinct(Literals(members))
  {
    if members != [] { LiteralsDistinct(members[..|members| - 1]); }
  }

  // A group's spellings are exactly the listed subjects with its genome.
  lemma SpellingsAre(inv: Inventory, g: string, t: string)
    ensures t in Spellings(inv, g) <==> Listed(inv.occ, t) && inv.key(t) == g
  {
    LiteralsIn(Members(inv, g), t);
    if t in Spellings(inv, g) {
      var o :| o in Members(inv, g) && o.subject == t;
      MembersIn(inv, g, o);
    }
    if Listed(inv.occ, t) && inv.key(t) == g {
      var o :| o in inv.occ && o.subject == t;
      MembersIn(inv, g, o);
    }
  }

  predicate CleanText(s: seq<string>) { forall i | 0 <= i < |s| :: s[i] != "" && Trimmed(s[i]) }

  lemma SpellingsAreClean(inv: Inventory, g: string)
    requires Clean(inv.occ)
    ensures Distinct(Spellings(inv, g)) && CleanText(Spellings(inv, g))
  {
    LiteralsDistinct(Members(inv, g));
    var lits := Spellings(inv, g);
    forall i | 0 <= i < |lits| ensures lits[i] != "" && Trimmed(lits[i]) {
      SpellingsAre(inv, g, lits[i]);
      var o :| o in inv.occ && o.subject == lits[i];
      assert CleanOccurrence(o);
    }
  }

  lemma {:induction false} CleanPeersKeeps(s: seq<string>)
    requires Distinct(s) && CleanText(s)
    ensures CleanPeers(s) == s
  {
    if s != [] {
      var n := |s| - 1;
      CleanPeersKeeps(s[..n]);
      TrimmedIsFixed(s[n]);
      assert s == s[..n] + [s[n]];
    }
  }

  predicate FromGroup(inv: Inventory, f: Finding) {
    f.genome != "" && f.cluster == Spellings(inv, f.genome) && |f.cluster| >= 2
  }

  predicate FromGroups(inv: Inventory, findings: seq<Finding>) {
    forall i | 0 <= i < |findings| :: FromGroup(inv, findings[i])
  }

  predicate Reports(findings: seq<Finding>, g: string) { exists i :: 0 <= i < |findings| && findings[i].genome == g }

  lemma {:induction false} FindingsInShape(members: seq<Occurrence>, g: string, literals: seq<string>,
                                           suggested: string)
    ensures forall f | f in FindingsIn(members, g, literals, suggested) :: f.genome == g && f.cluster == literals
  {
    if members != [] { FindingsInShape(members[..|members| - 1], g, literals, suggested); }
  }

  lemma {:induction false} FindingsInNonEmpty(members: seq<Occurrence>, g: string, literals: seq<string>,
                                              suggested: string, t: string)
    requires Listed(members, t) && t != suggested
    ensures FindingsIn(members, g, literals, suggested) != []
  {
    var n := |members| - 1;
    if members[n].subject == suggested {
      var o :| o in members && o.subject == t;
      assert o in members[..n];
      FindingsInNonEmpty(members[..n], g, literals, suggested, t);
    }
  }

  // Whatever the suggestion, a group with two spellings has a member that differs from it.
  lemma FindingsOfFacts(inv: Inventory, g: string, suggest: seq<string> -> string)
    requires g != ""
    ensures FromGroups(inv, FindingsOf(inv, g, suggest))
    ensures Reports(FindingsOf(inv, g, suggest), g) <==> |Spellings(inv, g)| >= 2
    ensures forall h :: Reports(FindingsOf(inv, g, suggest), h) ==> h == g
  {
    var lits := Spellings(inv, g);
    var ms := Members(inv, g);
    var fs := FindingsOf(inv, g, suggest);
    if |lits| >= 2 {
      FindingsInShape(ms, g, lits, suggest(lits));
      LiteralsDistinct(ms);
      var t := if lits[0] == suggest(lits) then lits[1] else lits[0];
      assert lits[0] != lits[1] && t in lits;
      LiteralsIn(ms, t);
      FindingsInNonEmpty(ms, g, lits, suggest(lits), t);
      assert fs[0] in fs;
      assert Reports(fs, g);
    }
  }

  lemma ReportsConcat(a: seq<Finding>, b: seq<Finding>, g: string)
    ensures Reports(a + b, g) <==> Reports(a, g) || Reports(b, g)
  {
    if Reports(a, g) { var i :| 0 <= i < |a| && a[i].genome == g; assert (a + b)[i].genome == g; }
    if Reports(b, g) { var i :| 0 <= i < |b| && b[i].genome == g; assert (a + b)[|a| + i].genome == g; }
    if Reports(a + b, g) {
      var i :| 0 <= i < |a + b| && (a + b)[i].genome == g;
      if i < |a| { assert a[i].genome == g; } else { assert b[i - |a|].genome == g; }
    }
  }

  lemma FromGroupsConcat(inv: Inventory, a: seq<Finding>, b: seq<Finding>)
    requires FromGroups(inv, a) && FromGroups(inv, b)
    ensures FromGroups(inv, a + b)
  {}

  predicate ReportedIn(inv: Inventory, order: seq<string>, g: string) { g in order && |Spellings(inv, g)| >= 2 }

  lemma InOrderStep(inv: Inventory, order: seq<string>, h: string, suggest: seq<string> -> string, g: string)
    requires h != "" && FromGroups(inv, FindingsInOrder(inv, order, suggest))
    requires Reports(FindingsInOrder(inv, order, suggest), g) <==> ReportedIn(inv, order, g)
    ensures FromGroups(inv, FindingsInOrder(inv, order + [h], suggest))
    ensures Reports(FindingsInOrder(inv, order + [h], suggest), g) <==> ReportedIn(inv, order + [h], g)
  {
    var a, b := FindingsInOrder(inv, order, suggest), FindingsOf(inv, h, suggest);
    FindingsOfFacts(inv, h, suggest);
    InOrderSnoc(inv, order, h, suggest);
    FromGroupsConcat(inv, a, b);
    ReportsConcat(a, b, g);
  }

  lemma {:induction false} InOrderFacts(inv: Inventory, order: seq<string>, suggest: seq<string> -> string, g: string)
    requires "" !in order
    ensures FromGroups(inv, FindingsInOrder(inv, order, suggest))
    ensures Reports(FindingsInOrder(inv, order, suggest), g) <==> ReportedIn(inv, order, g)
  {
    if order != [] {
      var n := |order| - 1;
      InOrderFacts(inv, order[..n], suggest, g);
      InOrderStep(inv, order[..n], order[n], suggest, g);
      assert order == order[..n] + [order[n]];
    }
  }

  // The finding makes sp(f.genome) the cluster of its genome.
  predicate Contributes(f: Finding, sp: string -> seq<string>) {
    ClusterKey(f) == f.genome != "" && CleanPeers(f.cluster) == sp(f.genome) && |CleanPeers(f.cluster)| >= 2
  }

  lemma ClusterMapSnoc(fs: seq<Finding>, f: Finding, sp: string -> seq<string>)
    requires Contributes(f, sp)
    ensures ClusterMap(fs + [f])
            == if f.genome in ClusterMap(fs) then ClusterMap(fs) else ClusterMap(fs)[f.genome := sp(f.genome)]
  {
    assert (fs + [f])[..|fs|] == fs;
  }

  lemma ClusterMapStep(fs: seq<Finding>, f: Finding, sp: string -> seq<string>, g: string)
    requires Contributes(f, sp)
    requires g in ClusterMap(fs) <==> Reports(fs, g)
    requires g in ClusterMap(fs) ==> ClusterMap(fs)[g] == sp(g)
    ensures g in ClusterMap(fs + [f]) <==> Reports(fs + [f], g)
    ensures g in ClusterMap(fs + [f]) ==> ClusterMap(fs + [f])[g] == sp(g)
  {
    ClusterMapSnoc(fs, f, sp);
    ReportsConcat(fs, [f], g);
    assert [f][0].genome == f.genome;
  }

  lemma {:induction false} ClusterMapFacts(findings: seq<Finding>, sp: string -> seq<string>, g: string)
    requires forall i | 0 <= i < |findings| :: Contributes(findings[i], sp)
    ensures g in ClusterMap(findings) <==> Reports(findings, g)
    ensures g in ClusterMap(findings) ==> ClusterMap(findings)[g] == sp(g)
  {
    if findings != [] {
      var n := |findings| - 1;
      ClusterMapFacts(findings[..n], sp, g);
      ClusterMapStep(findings[..n], findings[n], sp, g);
      assert findings == findings[..n] + [findings[n]];
    }
  }

  ghost predicate TrimmedKeys(inv: Inventory) { forall s :: TrimSpace(inv.key(s)) == inv.key(s) }

  lemma FromGroupContributes(inv: Inventory, f: Finding)
    requires Clean(inv.occ) && TrimmedKeys(inv) && FromGroup(inv, f)
    ensures Contributes(f, g => Spellings(inv, g))
  {
    SpellingsAre(inv, f.genome, f.cluster[0]);
    assert TrimSpace(inv.key(f.cluster[0])) == inv.key(f.cluster[0]);
    SpellingsAreClean(inv, f.genome);
    CleanPeersKeeps(f.cluster);
  }

  // The clusters are the groups with two or more spellings.
  lemma ClustersAre(inv: Inventory, order: seq<string>, suggest: seq<string> -> string, g: string)
    requires Clean(inv.occ) && TrimmedKeys(inv) && OrderOf(inv, order)
    ensures var clusters := ClusterMap(FindingsInOrder(inv, order, suggest));
            (g in clusters <==> ReportedIn(inv, order, g)) && (g in clusters ==> clusters[g] == Spellings(inv, g))
  {
    var findings := FindingsInOrder(inv, order, suggest);
    var sp := h => Spellings(inv, h);
    InOrderFacts(inv, order, suggest, g);
    forall i | 0 <= i < |findings| ensures Contributes(findings[i], sp) {
      assert FromGroup(inv, findings[i]);
      FromGroupContributes(inv, findings[i]);
    }
    ClusterMapFacts(findings, sp, g);
  }

  lemma {:induction false} PeersAre(literals: seq<string>, s: string, t: string)
    ensures t in Peers(literals, s) <==> t in literals && t != s
  {
    if literals != [] {
      PeersAre(literals[..|literals| - 1], s, t);
      assert literals == literals[..|literals| - 1] + [literals[|literals| - 1]];
    }
  }

  lemma {:induction false} TwoOf(s: seq<string>, x: string, y: string)
    requires x in s && y in s && x != y
    ensures |s| >= 2
  {}

  ghost predicate Cognate(inv: Inventory, s: string, t: string) {
    s != t && Listed(inv.occ, s) && Listed(inv.occ, t) && inv.key(s) == inv.key(t) != ""
  }

  // t is listed as related to s exactly when both are in the inventory, differ, and share a non-empty
  // genome key; hence the relation is symmetric and complete. It holds for every suggestion rule and for
  // every order in which the groups and the clusters are visited.
  lemma RelatedExactly(inv: Inventory, order: seq<string>, suggest: seq<string> -> string,
                       related: map<string, seq<string>>, s: string, t: string)
    requires Clean(inv.occ) && TrimmedKeys(inv) && OrderOf(inv, order)
    requires RelatedBy(ClusterMap(FindingsInOrder(inv, order, suggest)), related)
    ensures s in related && t in related[s] <==> Cognate(inv, s, t)
    ensures s in related ==> Listed(inv.occ, s)
  {
    var clusters := ClusterMap(FindingsInOrder(inv, order, suggest));
    if s in related {
      assert PeersOfOne(clusters, s, related[s]);
      var k :| InCluster(clusters, k, s) && related[s] == Peers(clusters[k], s);
      ClustersAre(inv, order, suggest, k);
      PeersAre(clusters[k], s, t);
      SpellingsAre(inv, k, s);
      SpellingsAre(inv, k, t);
    } else if Cognate(inv, s, t) {
      CognatesAreClustered(inv, order, suggest, s, t);
      assert false;
    }
  }

  lemma CognatesAreClustered(inv: Inventory, order: seq<string>, suggest: seq<string> -> string, s: string, t: string)
    requires Clean(inv.occ) && TrimmedKeys(inv) && OrderOf(inv, order) && Cognate(inv, s, t)
    ensures InCluster(ClusterMap(FindingsInOrder(inv, order, suggest)), inv.key(s), s)
  {
    var g := inv.key(s);
    SpellingsAre(inv, g, s);
    SpellingsAre(inv, g, t);
    TwoOf(Spellings(inv, g), s, t);
    assert Members(inv, g) != [];
    ClustersAre(inv, order, suggest, g);
  }

  // The whole path from stream inputs to related events.
  method RelatedEvents(inputs: seq<Stream>, suggest: seq<string> -> string) returns (related: map<string, seq<string>>)
    ensures forall s, t :: s in related && t in related[s] <==> Cognate(GenomeInventory(inputs), s, t)
    ensures forall s | s in related :: Listed(Occurrences(inputs), s)
  {
    var findings, clusters := AnalyzeEventGenome(inputs, suggest);
    ghost var inv := GenomeInventory(inputs);
    ghost var order :| Analysis(inv, suggest, order, findings, clusters);
    related := GenomeRelatedBySubject(findings);
    OccurrencesClean(inputs);
    GenomeKeysAreTrimmed(inv);
    forall s, t ensures s in related && t in related[s] <==> Cognate(inv, s, t) {
      RelatedExactly(inv, order, suggest, related, s, t);
    }
    forall s | s in related ensures Listed(inv.occ, s) {
      RelatedExactly(inv, order, suggest, related, s, s);
    }
  }

  lemma GenomeKeysAreTrimmed(inv: Inventory)
    requires inv.key == GenomeKey
    ensures TrimmedKeys(inv)
  {
    forall s ensures TrimSpace(inv.key(s)) == inv.key(s) { GenomeKeyIsTrimmed(s); }
  }
}
