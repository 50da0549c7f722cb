/** What an incident timeline contains, event by event, and what its thresholds, keys and order mean. */
module TimelineContents {
  import opened IncidentTimeline
  import opened Text

  /* ---- thresholds, keys and order ---- */

  // A growth of 100, or one of 50 that is a quarter of what there was.
  // For redeliveries, a growth of 5.
  lemma JumpsMean(prev: real, cur: real)
    ensures RedeliveryJump(prev, cur) <==> cur >= prev + 5.0
    ensures LagJump(prev, cur) <==>
              cur >= prev + 100.0 || (cur >= prev + 50.0 && (prev <= 0.0 || 4.0 * (cur - prev) >= prev))
  {
    if prev > 0.0 { QuarterMeans(prev, cur - prev); }
  }

  lemma QuarterMeans(prev: real, delta: real)
    requires prev > 0.0
    ensures delta / prev >= 0.25 <==> 4.0 * delta >= prev
  {
    var q := delta / prev;
    assert q * prev == delta;
    if q >= 0.25 { Scaled(0.25, q, prev); } else { StrictlyScaled(q, 0.25, prev); }
  }

  lemma Scaled(a: real, b: real, t: real)
    requires a <= b && t > 0.0
    ensures a * t <= b * t
  {
    assert (b - a) * t >= 0.0;
  }

  lemma StrictlyScaled(a: real, b: real, t: real)
    requires a < b && t > 0.0
    ensures a * t < b * t
  {
    assert (b - a) * t > 0.0;
  }

  function NameOf(c: Category): string {
    match c
    case Change => "change"
    case Deploy => "deploy"
    case LagGrowth => "lag_growth"
    case NodeDisconnect => "node_disconnect"
    case ProcessingStopped => "processing_stopped"
    case RedeliverySpike => "redelivery_spike"
  }

  // Ties are broken by the names of the categories, which differ in their first letters.
  lemma RankIsAlphabetical(a: Category, b: Category)
    ensures Rank(a) < Rank(b) <==> NameOf(a)[0] < NameOf(b)[0]
    ensures NameOf(a) == NameOf(b) <==> a == b
  {
    assert NameOf(a)[0] == NameOf(b)[0] <==> a == b;
  }

  // Two events are taken for one if they say the same within one second of the clock.
  lemma SameKeyExactly(a: Event, b: Event)
    ensures KeyOf(a) == KeyOf(b) <==>
              a.category == b.category && a.caption == b.caption && exists s :: InSecond(a.at, s) && InSecond(b.at, s)
  {
    assert InSecond(a.at, a.at / SECOND) && InSecond(b.at, b.at / SECOND);
    forall s | InSecond(a.at, s) && InSecond(b.at, s) ensures a.at / SECOND == s == b.at / SECOND {
      OneSecond(a.at, s);
      OneSecond(b.at, s);
    }
  }

  predicate InSecond(at: int, s: int) { s * 1_000_000_000 <= at < (s + 1) * 1_000_000_000 }

  lemma OneSecond(at: int, s: int)
    requires InSecond(at, s)
    ensures at / SECOND == s
  {}

  /* ---- deduplication ---- */

  predicate FirstOfKey(events: seq<Event>, i: nat) {
    i < |events| && forall j | 0 <= j < i :: KeyOf(events[j]) != KeyOf(events[i])
  }

  // idx says where each event that is kept stood.
  ghost predicate Keeps(events: seq<Event>, kept: seq<Event>, idx: seq<nat>) {
    && |idx| == |kept|
    && (forall k | 0 <= k < |idx| :: FirstOfKey(events, idx[k]) && events[idx[k]] == kept[k])
    && (forall k, l | 0 <= k < l < |idx| :: idx[k] < idx[l])
    && (forall i: nat | FirstOfKey(events, i) :: i in idx)
  }

  // What is kept is the first event of every key, in the order given.
  lemma {:induction false} KeepsFirsts(events: seq<Event>) returns (idx: seq<nat>)
    ensures Keeps(events, Dedupe(events), idx)
  {
    idx := [];
    if events != [] {
      var n := |events| - 1;
      var rest := KeepsFirsts(events[..n]);
      SeenBefore(events, n);
      idx := if FirstOfKey(events, n) then rest + [n] else rest;
      KeepsSnoc(events, Dedupe(events[..n]), rest);
    }
  }

  lemma KeepsSnoc(events: seq<Event>, kept: seq<Event>, idx: seq<nat>)
    requires events != [] && Keeps(events[..|events| - 1], kept, idx)
    ensures var n := |events| - 1;
            if FirstOfKey(events, n) then Keeps(events, kept + [events[n]], idx + [n]) else Keeps(events, kept, idx)
  {
    var n := |events| - 1;
    forall i: nat | i < n ensures FirstOfKey(events, i) <==> FirstOfKey(events[..n], i) { SamePrefix(events, n, i); }
    forall k | 0 <= k < |idx| ensures idx[k] < n && FirstOfKey(events, idx[k]) {
      assert FirstOfKey(events[..n], idx[k]);
    }
    var more := idx + [n];
    forall i: nat | FirstOfKey(events, i) ensures i in more { if i < n { assert i in idx; } }
  }

  lemma SamePrefix(events: seq<Event>, n: nat, i: nat)
    requires i < n <= |events|
    ensures FirstOfKey(events, i) <==> FirstOfKey(events[..n], i)
  {}

  lemma SeenBefore(events: seq<Event>, n: nat)
    requires n < |events|
    ensures KeyOf(events[n]) in KeysOf(events[..n]) <==> !FirstOfKey(events, n)
  {
    if KeyOf(events[n]) in KeysOf(events[..n]) {
      var e :| e in events[..n] && KeyOf(e) == KeyOf(events[n]);
      var j :| 0 <= j < n && events[j] == e;
    } else {
      forall j | 0 <= j < n ensures KeyOf(events[j]) != KeyOf(events[n]) { assert events[j] in events[..n]; }
    }
  }

  /* ---- contents ---- */

  lemma EventsAtIs(samples: seq<Sample>, hits: seq<nat>, category: Category, caption: string, e: Event)
    requires forall h | h in hits :: h < |samples|
    ensures e in EventsAt(samples, hits, category, caption)
       <==> exists h :: h in hits && e == Event(samples[h].at, category, caption)
  {
    var events := EventsAt(samples, hits, category, caption);
    if h :| h in hits && e == Event(samples[h].at, category, caption) {
      var k :| 0 <= k < |hits| && hits[k] == h;
      assert events[k] == e;
    }
  }

  // e reports the first jump of an episode, at sample j.
  predicate MarksJump(samples: seq<Sample>, v: seq<real>, jump: Jump, j: nat, e: Event, category: Category,
                      caption: string)
    requires |v| == |samples|
  {
    FirstOfRise(v, jump, j) && e == Event(samples[j].at, category, caption)
  }

  ghost predicate MarksLag(samples: seq<Sample>, e: Event) {
    exists j: nat :: MarksJump(samples, Lags(samples), LagJump, j, e, LagGrowth, "Consumer lag grows")
  }

  ghost predicate MarksSpike(samples: seq<Sample>, e: Event) {
    exists j: nat ::
      MarksJump(samples, Redeliveries(samples), RedeliveryJump, j, e, RedeliverySpike, "Redeliveries spike")
  }

  // Nothing was delivered or acknowledged from sample i to the next, and messages were left waiting.
  predicate StandsStill(samples: seq<Sample>, i: nat)
    requires i + 1 < |samples|
  {
    var (x, y) := (samples[i], samples[i + 1]);
    x.delivered == y.delivered && x.acked == y.acked && y.lag > 0.0
  }

  // e reports the stop at sample j: the consumer stood still for exactly two steps by then.
  predicate StopsAt(samples: seq<Sample>, j: nat, e: Event, category: Category, caption: string) {
    && 2 <= j < |samples| && StandsStill(samples, j - 2) && StandsStill(samples, j - 1)
    && (j > 2 ==> !StandsStill(samples, j - 3))
    && e == Event(samples[j].at, category, caption)
  }

  ghost predicate MarksStop(samples: seq<Sample>, e: Event) {
    exists j: nat :: StopsAt(samples, j, e, ProcessingStopped, "Processing stops")
  }

  lemma JumpsAre(samples: seq<Sample>, v: seq<real>, jump: Jump, category: Category, caption: string, e: Event)
    requires |v| == |samples| && forall h | h in Firsts(v, jump, |samples|) :: h < |samples|
    ensures e in EventsAt(samples, Firsts(v, jump, |samples|), category, caption)
       <==> exists j: nat :: MarksJump(samples, v, jump, j, e, category, caption)
  {
    var hits := Firsts(v, jump, |samples|);
    EventsAtIs(samples, hits, category, caption, e);
    FirstsAre(v, jump, |samples|);
    if j: nat :| MarksJump(samples, v, jump, j, e, category, caption) { assert j in hits; }
    if h :| h in hits && e == Event(samples[h].at, category, caption) {
      assert MarksJump(samples, v, jump, h, e, category, caption);
    }
  }

  lemma StopsAre(samples: seq<Sample>, category: Category, caption: string, e: Event)
    requires forall h | h in SecondFlats(samples, |samples|) :: h < |samples|
    ensures e in EventsAt(samples, SecondFlats(samples, |samples|), category, caption)
       <==> exists j: nat :: StopsAt(samples, j, e, category, caption)
  {
    var hits := SecondFlats(samples, |samples|);
    EventsAtIs(samples, hits, category, caption, e);
    if j: nat :| StopsAt(samples, j, e, category, caption) {
      SecondFlatsAre(samples, |samples|, j);
      assert j in hits;
    }
    if h :| h in hits && e == Event(samples[h].at, category, caption) {
      SecondFlatsAre(samples, |samples|, h);
      assert StopsAt(samples, h, e, category, caption);
    }
  }

  // The detectors report lag growth, redelivery spikes and stops, each where its rule says, and nothing else.
  lemma DetectedExactly(samples: seq<Sample>, e: Event)
    ensures e in Detected(samples) <==> MarksLag(samples, e) || MarksSpike(samples, e) || MarksStop(samples, e)
  {
    HitsInRange(samples);
    JumpsAre(samples, Lags(samples), LagJump, LagGrowth, "Consumer lag grows", e);
    JumpsAre(samples, Redeliveries(samples), RedeliveryJump, RedeliverySpike, "Redeliveries spike", e);
    StopsAre(samples, ProcessingStopped, "Processing stops", e);
  }

  // The samples looked at are those of the stream, the consumer and the window that were asked for; a blank name
  // asks for all.
  lemma SamplesExactly(input: Input, s: Sample)
    ensures var (stream, consumer) := (TrimSpace(input.stream), TrimSpace(input.consumer));
            s in Scoped(input) <==>
              && s in input.samples && input.from <= s.at <= input.to
              && (stream != "" ==> s.stream == stream) && (consumer != "" ==> s.consumer == consumer)
  {
    ScopedIn(input.samples, TrimSpace(input.stream), TrimSpace(input.consumer), input.from, input.to, s);
  }

  // A change is labelled with its action and, when one is named, its resource.
  lemma ChangeLabel(a: AuditChange)
    requires a.action != ""
    ensures AuditLabel(a) == a.action + if a.resourceType == "" && a.resourceName == "" then ""
                                        else " " + TrimSpace(a.resourceType + " " + a.resourceName)
  {
    var rest := ResourceLabel(a);
    if rest != [] { JoinTwo(a.action, rest[0]); }
    assert [a.action] + [] == [a.action];
    assert a.action + "" == a.action;
  }

  lemma JoinTwo(x: string, y: string)
    ensures Join([x] + [y], ' ') == x + (" " + y)
  {
    assert ([x] + [y])[1..] == [y];
  }

  ghost predicate AnyDeploy(input: Input) {
    exists a, e :: a in input.annotations && MarksDeploy(a, input.from, input.to, e)
  }

  // The events that make up a timeline: the deploys of the window, or its audit changes when there was no
  // deploy; what the detectors find in the samples; and the disconnects.
  lemma CandidatesExactly(input: Input, ordered: seq<Sample>, e: Event)
    ensures e in Candidates(input, ordered) <==>
              || (exists a :: a in input.annotations && MarksDeploy(a, input.from, input.to, e))
              || (!AnyDeploy(input) && exists a :: a in input.audit && MarksChange(a, input.from, input.to, e))
              || MarksLag(ordered, e) || MarksSpike(ordered, e) || MarksStop(ordered, e)
              || (exists d :: d in input.nodes && MarksDisconnect(d, input.from, input.to, e))
  {
    DeployIn(input.annotations, input.from, input.to, e);
    ChangeIn(input.audit, input.from, input.to, e);
    DisconnectIn(input.nodes, input.from, input.to, e);
    DetectedExactly(ordered, e);
    AnyDeployIs(input);
  }

  lemma AnyDeployIs(input: Input)
    ensures AnyDeploy(input) <==> DeployEvents(input.annotations, input.from, input.to) != []
  {
    var deploys := DeployEvents(input.annotations, input.from, input.to);
    if a, e :| a in input.annotations && MarksDeploy(a, input.from, input.to, e) {
      DeployIn(input.annotations, input.from, input.to, e);
    }
    if deploys != [] { DeployIn(input.annotations, input.from, input.to, deploys[0]); }
  }
}
