/** What the genome analysis reports, finding by finding, and how clusters are rebuilt from any findings. */
module GenomeFindings {
  import opened GenomeRelations
  import opened SubjectNaming
  import opened Text

  /* ---- occurrences ---- */

  // Not empty, and none of its tokens is a wildcard.
  predicate NamesEvent(t: string) {
    t != "" && forall i | 0 <= i < |Split(t, '.')| :: Split(t, '.')[i] != "*" && Split(t, '.')[i] != ">"
  }

  lemma PlainNamesEvent(t: string)
    ensures NamesEvent(t) <==> Plain(t)
  {
    var toks := Split(t, '.');
    forall i | 0 <= i < |toks| ensures toks[i] in toks {}
  }

  // One of the filters of c is the subject of o, once trimmed.
  predicate FilterOf(c: Consumer, o: Occurrence) { o.consumer == TrimSpace(c.name) && ConsumerNames(c, o.subject) }

  predicate AnyFilter(consumers: seq<Consumer>, o: Occurrence) { exists c :: c in consumers && FilterOf(c, o) }

  // The stream has o as a subject of its own, or as a filter of the consumer that o names.
  predicate Mentions(s: Stream, o: Occurrence) {
    && o.stream == TrimSpace(s.name)
    && ((o.consumer == "" && Names(s.subjects, o.subject))
        || AnyFilter(s.consumers, o))
  }

  predicate AnyMentions(inputs: seq<Stream>, o: Occurrence) { exists s :: s in inputs && Mentions(s, o) }

  lemma {:induction false} SubjectsAre(stream: string, consumer: string, subjects: seq<string>, o: Occurrence)
    ensures o in FromSubjects(stream, consumer, subjects)
       <==> o.stream == stream && o.consumer == consumer && NamesEvent(o.subject) && Names(subjects, o.subject)
  {
    PlainNamesEvent(o.subject);
    if subjects != [] {
      var n := |subjects| - 1;
      SubjectsAre(stream, consumer, subjects[..n], o);
      assert subjects == subjects[..n] + [subjects[n]];
      assert Names(subjects, o.subject) <==> Names(subjects[..n], o.subject) || TrimSpace(subjects[n]) == o.subject;
    }
  }

  lemma AnyFilterSnoc(consumers: seq<Consumer>, c: Consumer, o: Occurrence)
    ensures AnyFilter(consumers + [c], o) <==> AnyFilter(consumers, o) || FilterOf(c, o)
  {
    if AnyFilter(consumers, o) {
      var d :| d in consumers && FilterOf(d, o);
      assert d in consumers + [c];
    }
    assert c in consumers + [c];
  }

  lemma {:induction false} ConsumersAre(stream: string, consumers: seq<Consumer>, o: Occurrence)
    ensures o in FromConsumers(stream, consumers)
       <==> o.stream == stream && NamesEvent(o.subject) && AnyFilter(consumers, o)
  {
    if consumers != [] {
      var n := |consumers| - 1;
      ConsumersAre(stream, consumers[..n], o);
      ConsumerIs(stream, consumers[n], o);
      assert consumers == consumers[..n] + [consumers[n]];
      AnyFilterSnoc(consumers[..n], consumers[n], o);
    }
  }

  lemma ConsumerIs(stream: string, c: Consumer, o: Occurrence)
    ensures o in FromConsumer(stream, c) <==> o.stream == stream && NamesEvent(o.subject) && FilterOf(c, o)
  {
    SubjectsAre(stream, TrimSpace(c.name), [c.filter] + c.filters, o);
  }

  lemma StreamIs(s: Stream, o: Occurrence)
    ensures o in FromStream(s) <==> NamesEvent(o.subject) && Mentions(s, o)
  {
    SubjectsAre(TrimSpace(s.name), "", s.subjects, o);
    ConsumersAre(TrimSpace(s.name), s.consumers, o);
  }

  lemma {:induction false} StreamsAre(inputs: seq<Stream>, o: Occurrence)
    ensures o in FromStreams(inputs) <==> NamesEvent(o.subject) && AnyMentions(inputs, o)
  {
    if inputs != [] {
      var n := |inputs| - 1;
      StreamsAre(inputs[..n], o);
      StreamIs(inputs[n], o);
      assert inputs == inputs[..n] + [inputs[n]];
      AnyMentionsSnoc(inputs[..n], inputs[n], o);
      InOneMoreStream(inputs[..n], inputs[n], o);
    }
  }

  lemma InOneMoreStream(inputs: seq<Stream>, s: Stream, o: Occurrence)
    ensures o in FromStreams(inputs + [s]) <==> o in FromStreams(inputs) || o in FromStream(s)
  {
    OneMoreStream(inputs, s);
  }

  lemma AnyMentionsSnoc(inputs: seq<Stream>, s: Stream, o: Occurrence)
    ensures AnyMentions(inputs + [s], o) <==> AnyMentions(inputs, o) || Mentions(s, o)
  {
    if AnyMentions(inputs, o) {
      var r :| r in inputs && Mentions(r, o);
      assert r in inputs + [s];
    }
    assert s in inputs + [s];
  }

  ghost predicate FirstIs(occ: seq<Occurrence>, o: Occurrence) { exists i: nat :: FirstOfKey(occ, i) && occ[i] == o }

  lemma FirstIsSnoc(occ: seq<Occurrence>, p: Occurrence, o: Occurrence)
    ensures FirstIs(occ + [p], o) <==> FirstIs(occ, o) || (Key(p) !in Keys(occ) && p == o)
  {
    var all := occ + [p];
    assert Key(p) in Keys(occ) <==> !FirstOfKey(all, |occ|) by {
      if Key(p) in Keys(occ) {
        var q :| q in occ && Key(q) == Key(p);
        var j :| 0 <= j < |occ| && occ[j] == q;
        assert all[j] == q;
      } else {
        forall j | 0 <= j < |occ| ensures Key(all[j]) != Key(p) { assert all[j] in occ; }
      }
    }
    if FirstIs(occ, o) {
      var i: nat :| FirstOfKey(occ, i) && occ[i] == o;
      assert FirstOfKey(all, i);
    }
    forall i: nat | FirstOfKey(all, i) && i < |occ| ensures FirstOfKey(occ, i) {
      forall j | 0 <= j < i ensures Key(occ[j]) != Key(occ[i]) { assert all[j] == occ[j]; }
    }
  }

  lemma {:induction false} FirstsAre(occ: seq<Occurrence>, o: Occurrence)
    ensures o in Dedupe(occ) <==> FirstIs(occ, o)
  {
    if occ != [] {
      var n := |occ| - 1;
      FirstsAre(occ[..n], o);
      FirstIsSnoc(occ[..n], occ[n], o);
      assert occ == occ[..n] + [occ[n]];
    }
  }

  // The inventory lists what is mentioned, by stream and consumer, once for every key: its first mention.
  lemma OccurrencesExactly(inputs: seq<Stream>, o: Occurrence)
    ensures o in Occurrences(inputs) <==> FirstIs(FromStreams(inputs), o)
    ensures o in FromStreams(inputs) <==> NamesEvent(o.subject) && AnyMentions(inputs, o)
  {
    FirstsAre(FromStreams(inputs), o);
    StreamsAre(inputs, o);
  }

  /* ---- findings ---- */

  lemma {:induction false} FindingsInAre(members: seq<Occurrence>, g: string, literals: seq<string>, suggested: string,
                                         f: Finding)
    ensures f in FindingsIn(members, g, literals, suggested)
       <==> exists o :: o in members && FindingFor(f, o, g, literals, suggested)
  {
    if members != [] {
      var n := |members| - 1;
      FindingsInAre(members[..n], g, literals, suggested, f);
      assert members == members[..n] + [members[n]];
      assert FindingFor(f, members[n], g, literals, suggested) ==> members[n] in members;
      if o :| o in members[..n] && FindingFor(f, o, g, literals, suggested) { assert o in members; }
    }
  }

  // The finding says of occurrence o that it is not spelled as suggested.
  predicate FindingFor(f: Finding, o: Occurrence, g: string, literals: seq<string>, suggested: string) {
    o.subject != suggested && f == Finding(g, o.subject, suggested, literals, o.stream, o.consumer)
  }

  ghost predicate FoundIn(inv: Inventory, g: string, suggest: seq<string> -> string, f: Finding) {
    var lits := Spellings(inv, g);
    |lits| >= 2 && exists o :: o in inv.occ && inv.key(o.subject) == g && FindingFor(f, o, g, lits, suggest(lits))
  }

  lemma FindingsOfAre(inv: Inventory, g: string, suggest: seq<string> -> string, f: Finding)
    ensures f in FindingsOf(inv, g, suggest) <==> FoundIn(inv, g, suggest, f)
  {
    var lits := Spellings(inv, g);
    FindingsInAre(Members(inv, g), g, lits, suggest(lits), f);
    forall o ensures o in Members(inv, g) <==> o in inv.occ && inv.key(o.subject) == g { MembersIn(inv, g, o); }
  }

  // Every occurrence of a group with two or more spellings that is not spelled as suggested is reported, with
  // its stream, its consumer and all spellings of the group; nothing else is.
  lemma {:induction false} FindingsExactly(inv: Inventory, order: seq<string>, suggest: seq<string> -> string,
                                           f: Finding)
    ensures f in FindingsInOrder(inv, order, suggest) <==> f.genome in order && FoundIn(inv, f.genome, suggest, f)
  {
    if order != [] {
      var n := |order| - 1;
      FindingsExactly(inv, order[..n], suggest, f);
      FindingsOfAre(inv, order[n], suggest, f);
      assert order == order[..n] + [order[n]];
    }
  }

  function Reported(inv: Inventory, order: seq<string>): set<string> {
    set g | g in order && |Spellings(inv, g)| >= 2
  }

  // The cluster count is the number of groups with two or more spellings.
  lemma {:induction false} CountIsReported(inv: Inventory, order: seq<string>)
    requires Distinct(order)
    ensures ClusterCount(inv, order) == |Reported(inv, order)|
  {
    if order != [] {
      var n := |order| - 1;
      CountIsReported(inv, order[..n]);
      assert order == order[..n] + [order[n]];
      assert order[n] !in order[..n];
      var now := Reported(inv, order);
      assert now == Reported(inv, order[..n]) + if |Spellings(inv, order[n])| >= 2 then {order[n]} else {};
    }
  }

  /* ---- clusters from any findings ---- */

  // The peers of a cluster are its trimmed, non-empty members, each once.
  lemma {:induction false} CleanPeersExactly(cluster: seq<string>, t: string)
    ensures t in CleanPeers(cluster) <==> t != "" && exists m :: m in cluster && TrimSpace(m) == t
    ensures Distinct(CleanPeers(cluster))
  {
    if cluster != [] {
      var n := |cluster| - 1;
      CleanPeersExactly(cluster[..n], t);
      CleanPeersExactly(cluster[..n], TrimSpace(cluster[n]));
      assert cluster == cluster[..n] + [cluster[n]];
    }
  }

  // The finding makes a cluster for k: its genome, or for want of one its subject, is k, and it has two peers.
  predicate Makes(f: Finding, k: string) {
    && k != "" && |CleanPeers(f.cluster)| >= 2
    && (k == TrimSpace(f.genome) || (TrimSpace(f.genome) == "" && k == TrimSpace(f.subject)))
  }

  predicate FirstMaker(findings: seq<Finding>, i: nat, k: string) {
    i < |findings| && Makes(findings[i], k) && forall j | 0 <= j < i :: !Makes(findings[j], k)
  }

  lemma ClusterMapLast(findings: seq<Finding>, k: string)
    requires findings != []
    ensures var n := |findings| - 1;
            var before := ClusterMap(findings[..n]);
            && (k in ClusterMap(findings) <==> k in before || Makes(findings[n], k))
            && (k in ClusterMap(findings) ==>
                  ClusterMap(findings)[k] == if k in before then before[k] else CleanPeers(findings[n].cluster))
  {}

  lemma FirstMakerSnoc(findings: seq<Finding>, i: nat, k: string)
    requires i < |findings| - 1
    ensures FirstMaker(findings, i, k) <==> FirstMaker(findings[..|findings| - 1], i, k)
  {}

  // A key without a cluster has no finding that makes one; otherwise the cluster is that of the first finding
  // that does, which is finding i.
  lemma {:induction false} ClusterMapExactly(findings: seq<Finding>, k: string) returns (i: nat)
    ensures k in ClusterMap(findings) ==> FirstMaker(findings, i, k)
    ensures k in ClusterMap(findings) ==> ClusterMap(findings)[k] == CleanPeers(findings[i].cluster)
    ensures k !in ClusterMap(findings) ==> forall j | 0 <= j < |findings| :: !Makes(findings[j], k)
  {
    i := 0;
    if findings != [] {
      var n := |findings| - 1;
      i := ClusterMapExactly(findings[..n], k);
      ClusterMapLast(findings, k);
      if k in ClusterMap(findings[..n]) {
        FirstMakerSnoc(findings, i, k);
      } else {
        i := n;
        forall j | 0 <= j < n ensures !Makes(findings[j], k) { assert !Makes(findings[..n][j], k); }
      }
    }
  }
}
