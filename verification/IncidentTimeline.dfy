/** Incident reconstruction: detectors that skip ahead over samples, and the timeline they feed. */
module IncidentTimeline {
  import opened Text

  // Instants are nanoseconds since the epoch.

  /* ---- skip-ahead detectors ---- */

  type Jump = (real, real) -> bool

  predicate RatioOK(prev: real, delta: real) { prev <= 0.0 || delta / prev >= 0.25 }

  predicate LagJump(prev: real, cur: real) {
    cur - prev >= 50.0 && (RatioOK(prev, cur - prev) || cur - prev >= 100.0)
  }

  predicate RedeliveryJump(prev: real, cur: real) { cur - prev >= 5.0 }

  predicate JumpAt(v: seq<real>, jump: Jump, i: nat) { 0 < i < |v| && jump(v[i - 1], v[i]) }

  predicate DropAt(v: seq<real>, d: nat) { 0 < d < |v| && v[d] < v[d - 1] }

  // The value falls somewhere after k and up to j.
  predicate DropIn(v: seq<real>, k: nat, j: nat) { exists d | k < d <= j :: DropAt(v, d) }

  // The first jump of an episode: the value has fallen since every earlier jump.
  predicate FirstOfRise(v: seq<real>, jump: Jump, j: nat) {
    JumpAt(v, jump, j) && forall k | 0 <= k < j :: JumpAt(v, jump, k) ==> DropIn(v, k, j)
  }

  function Firsts(v: seq<real>, jump: Jump, n: nat): seq<nat> {
    if n == 0 then [] else Firsts(v, jump, n - 1) + if FirstOfRise(v, jump, n - 1) then [n - 1] else []
  }

  lemma {:induction false} FirstsAre(v: seq<real>, jump: Jump, n: nat)
    ensures forall j: nat :: j in Firsts(v, jump, n) <==> j < n && FirstOfRise(v, jump, j)
    ensures forall a, b | 0 <= a < b < |Firsts(v, jump, n)| :: Firsts(v, jump, n)[a] < Firsts(v, jump, n)[b]
  {
    if n > 0 {
      FirstsAre(v, jump, n - 1);
      var f := Firsts(v, jump, n - 1);
      forall a | 0 <= a < |f| ensures f[a] < n - 1 { assert f[a] in f; }
    }
  }

  // Every jump before i is followed by a fall no later than i.
  predicate Settled(v: seq<real>, jump: Jump, i: nat) {
    i < |v| ==> forall k | 0 <= k < i :: JumpAt(v, jump, k) ==> DropIn(v, k, i)
  }

  lemma Pass(v: seq<real>, jump: Jump, i: nat)
    requires 0 < i < |v| && Settled(v, jump, i) && !JumpAt(v, jump, i)
    ensures Firsts(v, jump, i + 1) == Firsts(v, jump, i) && Settled(v, jump, i + 1)
  {
    forall k | 0 <= k < i + 1 && JumpAt(v, jump, k) ensures DropIn(v, k, i + 1) {
      var d :| k < d <= i && DropAt(v, d);
    }
  }

  lemma Report(v: seq<real>, jump: Jump, i: nat)
    requires 0 < i < |v| && Settled(v, jump, i) && JumpAt(v, jump, i)
    ensures Firsts(v, jump, i + 1) == Firsts(v, jump, i) + [i]
  {}

  predicate NoDropIn(v: seq<real>, i: nat, e: nat) { forall d | i < d <= e :: !DropAt(v, d) }

  // Nothing is reported while the value does not fall after a jump.
  lemma {:induction false} Skip(v: seq<real>, jump: Jump, i: nat, e: nat)
    requires 0 < i <= e < |v| && JumpAt(v, jump, i) && NoDropIn(v, i, e)
    ensures Firsts(v, jump, e + 1) == Firsts(v, jump, i + 1)
    decreases e
  {
    if e > i {
      Skip(v, jump, i, e - 1);
      assert !DropIn(v, i, e);
    }
  }

  lemma SettledAfterSkip(v: seq<real>, jump: Jump, i: nat, e: nat)
    requires 0 < i <= e < |v| && (e + 1 < |v| ==> DropAt(v, e + 1))
    ensures Settled(v, jump, e + 1)
  {}

  // The inner loop of both detectors: on to the last sample before the value falls.
  method EndOfRise(v: seq<real>, at: nat) returns (i: nat)
    requires at < |v|
    ensures at <= i < |v| && NoDropIn(v, at, i) && (i + 1 < |v| ==> DropAt(v, i + 1))
  {
    i := at;
    while i + 1 < |v| && v[i + 1] >= v[i]
      invariant at <= i < |v| && NoDropIn(v, at, i)
    {
      i := i + 1;
    }
  }

  method DetectLagGrowth(lag: seq<real>) returns (hits: seq<nat>)
    ensures hits == Firsts(lag, LagJump, |lag|)
  {
    hits := [];
    if lag == [] { return; }
    var i := 1;
    while i < |lag|
      invariant 1 <= i <= |lag|
      invariant Settled(lag, LagJump, i) && hits == Firsts(lag, LagJump, i)
    {
      var prev, cur := lag[i - 1], lag[i];
      var delta := cur - prev;
      if delta < 50.0 || (!RatioOK(prev, delta) && delta < 100.0) {
        assert !LagJump(prev, cur);
        Pass(lag, LagJump, i);
        i := i + 1;
        continue;
      }
      Report(lag, LagJump, i);
      hits := hits + [i];
      var end := EndOfRise(lag, i);
      Skip(lag, LagJump, i, end);
      SettledAfterSkip(lag, LagJump, i, end);
      i := end + 1;
    }
  }

  method DetectRedeliverySpike(redelivered: seq<real>) returns (hits: seq<nat>)
    ensures hits == Firsts(redelivered, RedeliveryJump, |redelivered|)
  {
    hits := [];
    if redelivered == [] { return; }
    var i := 1;
    while i < |redelivered|
      invariant 1 <= i <= |redelivered|
      invariant Settled(redelivered, RedeliveryJump, i) && hits == Firsts(redelivered, RedeliveryJump, i)
    {
      if redelivered[i] - redelivered[i - 1] < 5.0 {
        Pass(redelivered, RedeliveryJump, i);
        i := i + 1;
        continue;
      }
      Report(redelivered, RedeliveryJump, i);
      hits := hits + [i];
      var end := EndOfRise(redelivered, i);
      Skip(redelivered, RedeliveryJump, i, end);
      SettledAfterSkip(redelivered, RedeliveryJump, i, end);
      i := end + 1;
    }
  }

  // No jump is lost: it is reported, or belongs to the unbroken rise that follows a reported one.
  lemma {:induction false} EveryJumpIsCovered(v: seq<real>, jump: Jump, j: nat) returns (r: nat)
    requires JumpAt(v, jump, j)
    ensures r <= j && r in Firsts(v, jump, |v|) && !DropIn(v, r, j)
    decreases j
  {
    FirstsAre(v, jump, |v|);
    if FirstOfRise(v, jump, j) {
      r := j;
    } else {
      var k :| 0 <= k < j && JumpAt(v, jump, k) && !DropIn(v, k, j);
      r := EveryJumpIsCovered(v, jump, k);
      assert !DropIn(v, r, j) by {
        forall d | r < d <= j ensures !DropAt(v, d) { assert d <= k || !DropAt(v, d); }
      }
    }
  }

  // Between two reports the value falls.
  lemma ReportsAreSeparated(v: seq<real>, jump: Jump, a: nat, b: nat)
    requires a < b && a in Firsts(v, jump, |v|) && b in Firsts(v, jump, |v|)
    ensures DropIn(v, a, b)
  {
    FirstsAre(v, jump, |v|);
  }

  // The comment in detectLagGrowth has an episode end already when the value flattens.
  predicate StallAt(v: seq<real>, d: nat) { 0 < d < |v| && v[d] <= v[d - 1] }

  predicate StallIn(v: seq<real>, k: nat, j: nat) { exists d | k < d <= j :: StallAt(v, d) }

  // What that comment would report: the value has fallen or stayed since every earlier jump.
  predicate FirstOfGrowth(v: seq<real>, jump: Jump, j: nat) {
    JumpAt(v, jump, j) && forall k | 0 <= k < j :: JumpAt(v, jump, k) ==> StallIn(v, k, j)
  }

  // Two jumps of one unbroken rise with a flat pair between them.
  predicate FlatBetween(v: seq<real>, jump: Jump, k: nat, j: nat) {
    k < j && JumpAt(v, jump, k) && JumpAt(v, jump, j) && !DropIn(v, k, j) && StallIn(v, k, j)
  }

  lemma DropIsStall(v: seq<real>, k: nat, j: nat)
    requires DropIn(v, k, j)
    ensures StallIn(v, k, j)
  {
    var d :| k < d <= j && DropAt(v, d);
    assert StallAt(v, d);
  }

  // The last of two such jumps, or one before it, is reported by the comment's rule alone.
  lemma {:induction false} FlatTellsApart(v: seq<real>, jump: Jump, k: nat, j: nat) returns (r: nat)
    requires FlatBetween(v, jump, k, j)
    ensures FirstOfGrowth(v, jump, r) && !FirstOfRise(v, jump, r)
    decreases j
  {
    if FirstOfGrowth(v, jump, j) {
      r := j;
    } else {
      var d :| k < d <= j && StallAt(v, d);
      var i :| 0 <= i < j && JumpAt(v, jump, i) && !StallIn(v, i, j);
      assert d <= i;
      assert StallIn(v, k, i);
      assert !DropIn(v, k, i) by { forall e | k < e <= i ensures !DropAt(v, e) {} }
      r := FlatTellsApart(v, jump, k, i);
    }
  }

  // The code and the comment report the same jumps exactly if no unbroken rise has two jumps with a flat
  // pair between them.
  lemma EpisodesAgreeExactly(v: seq<real>, jump: Jump)
    ensures (forall j: nat :: FirstOfRise(v, jump, j) <==> FirstOfGrowth(v, jump, j))
       <==> !exists k: nat, j: nat :: FlatBetween(v, jump, k, j)
  {
    if k: nat, j: nat :| FlatBetween(v, jump, k, j) {
      var r := FlatTellsApart(v, jump, k, j);
    } else {
      forall j: nat ensures FirstOfRise(v, jump, j) <==> FirstOfGrowth(v, jump, j) {
        forall k: nat | k < j && DropIn(v, k, j) ensures StallIn(v, k, j) { DropIsStall(v, k, j); }
        forall k: nat | k < j && JumpAt(v, jump, k) && JumpAt(v, jump, j) && StallIn(v, k, j) ensures DropIn(v, k, j) {
          assert !FlatBetween(v, jump, k, j);
        }
      }
    }
  }

  // Lag that rises, stays, and rises again: reported once, where the comment has two episodes.
  lemma FlatEpisodeExample()
    ensures var lag := [0.0, 50.0, 50.0, 100.0];
            && FirstOfGrowth(lag, LagJump, 1) && FirstOfGrowth(lag, LagJump, 3)
            && FirstOfRise(lag, LagJump, 1) && !FirstOfRise(lag, LagJump, 3)
  {
    var lag := [0.0, 50.0, 50.0, 100.0];
    assert JumpAt(lag, LagJump, 1) && JumpAt(lag, LagJump, 3) && !JumpAt(lag, LagJump, 2);
    assert StallAt(lag, 2) && StallIn(lag, 1, 3);
    assert !DropIn(lag, 1, 3);
  }

  /* ---- processing stopped ---- */

  datatype Sample = Sample(at: int, stream: string, consumer: string, lag: real, redelivered: real, delivered: real,
                           acked: real)

  // Nothing was delivered or acknowledged since the sample before, and messages are waiting.
  predicate FlatAt(samples: seq<Sample>, i: nat) {
    0 < i < |samples| && samples[i].delivered == samples[i - 1].delivered && samples[i].acked == samples[i - 1].acked
    && samples[i].lag > 0.0
  }

  predicate SecondFlat(samples: seq<Sample>, i: nat) {
    FlatAt(samples, i) && i >= 2 && FlatAt(samples, i - 1) && !(i >= 3 && FlatAt(samples, i - 2))
  }

  function SecondFlats(samples: seq<Sample>, n: nat): seq<nat> {
    if n == 0 then [] else SecondFlats(samples, n - 1) + if SecondFlat(samples, n - 1) then [n - 1] else []
  }

  lemma {:induction false} NoFlats(samples: seq<Sample>, n: nat)
    requires n <= 2
    ensures SecondFlats(samples, n) == []
  {
    if n > 0 { NoFlats(samples, n - 1); }
  }

  // How many flat pairs end at i, without a gap.
  function FlatRun(samples: seq<Sample>, i: nat): nat {
    if FlatAt(samples, i) then 1 + FlatRun(samples, i - 1) else 0
  }

  method DetectProcessingStopped(samples: seq<Sample>) returns (hits: seq<nat>)
    ensures hits == SecondFlats(samples, |samples|)
  {
    hits := [];
    if |samples| < 3 {
      NoFlats(samples, |samples|);
      return;
    }
    NoFlats(samples, 1);
    var flat := 0;
    for i := 1 to |samples|
      invariant hits == SecondFlats(samples, i) && flat == FlatRun(samples, i - 1)
    {
      var prev, cur := samples[i - 1], samples[i];
      if cur.delivered == prev.delivered && cur.acked == prev.acked && cur.lag > 0.0 {
        flat := flat + 1;
        if flat == 2 { hits := hits + [i]; }
        continue;
      }
      flat := 0;
    }
  }

  // A maximal run of flat pairs from a to b is reported exactly once, at its second pair, if it has one.
  lemma OncePerFlatRun(samples: seq<Sample>, a: nat, b: nat)
    requires 0 < a <= b && (forall i | a <= i <= b :: FlatAt(samples, i))
    requires !FlatAt(samples, a - 1) && !FlatAt(samples, b + 1)
    ensures forall i | a <= i <= b :: i in SecondFlats(samples, |samples|) <==> i == a + 1
  {
    forall i | a <= i <= b ensures i in SecondFlats(samples, |samples|) <==> i == a + 1 {
      assert FlatAt(samples, i) && FlatAt(samples, b);
      SecondFlatsAre(samples, |samples|, i);
      if i == a + 1 { assert FlatAt(samples, a); }
      if i > a + 1 { assert FlatAt(samples, i - 2); }
    }
  }

  lemma {:induction false} SecondFlatsAre(samples: seq<Sample>, n: nat, i: nat)
    ensures i in SecondFlats(samples, n) <==> i < n && SecondFlat(samples, i)
  {
    if n > 0 { SecondFlatsAre(samples, n - 1, i); }
  }

  /* ---- candidates for the timeline ---- */

  // In the order of their names, which breaks ties in the timeline.
  datatype Category = Change | Deploy | LagGrowth | NodeDisconnect | ProcessingStopped | RedeliverySpike

  function Rank(c: Category): nat {
    match c
    case Change => 0
    case Deploy => 1
    case LagGrowth => 2
    case NodeDisconnect => 3
    case ProcessingStopped => 4
    case RedeliverySpike => 5
  }

  datatype Event = Event(at: int, category: Category, caption: string)
  datatype Annotation = Annotation(at: int, kind: string, title: string)
  datatype AuditChange = AuditChange(at: int, action: string, resourceType: string, resourceName: string)
  datatype NodeEvent = NodeEvent(at: int, name: string, kind: string)
  datatype Input = Input(stream: string, consumer: string, from: int, to: int, annotations: seq<Annotation>,
                         samples: seq<Sample>, nodes: seq<NodeEvent>, audit: seq<AuditChange>)

  predicate InWindow(at: int, from: int, to: int) { from <= at <= to }

  function OrElse(s: string, fallback: string): string { if s == "" then fallback else s }

  function DeployOf(a: Annotation, from: int, to: int): seq<Event> {
    if OrElse(TrimSpace(a.kind), "deploy") == "deploy" && InWindow(a.at, from, to)
    then [Event(a.at, Deploy, OrElse(TrimSpace(a.title), "Deploy"))] else []
  }

  function DeployEvents(anns: seq<Annotation>, from: int, to: int): seq<Event> {
    if anns == [] then [] else DeployEvents(anns[..|anns| - 1], from, to) + DeployOf(anns[|anns| - 1], from, to)
  }

  function ResourceLabel(a: AuditChange): seq<string> {
    if a.resourceType == "" && a.resourceName == "" then [] else [TrimSpace(a.resourceType + " " + a.resourceName)]
  }

  function AuditLabel(a: AuditChange): string {
    var parts := (if a.action == "" then [] else [a.action]) + ResourceLabel(a);
    if parts == [] then "Change" else Join(parts, ' ')
  }

  function ChangeOf(a: AuditChange, from: int, to: int): seq<Event> {
    if InWindow(a.at, from, to) && TrimSpace(a.action) != "" then [Event(a.at, Change, AuditLabel(a))] else []
  }

  function ChangeEvents(audit: seq<AuditChange>, from: int, to: int): seq<Event> {
    if audit == [] then [] else ChangeEvents(audit[..|audit| - 1], from, to) + ChangeOf(audit[|audit| - 1], from, to)
  }

  function DisconnectOf(n: NodeEvent, from: int, to: int): seq<Event> {
    if n.kind == "disconnect" && InWindow(n.at, from, to)
    then [Event(n.at, NodeDisconnect, OrElse(TrimSpace(n.name), "Node") + " disconnects")] else []
  }

  function DisconnectEvents(nodes: seq<NodeEvent>, from: int, to: int): seq<Event> {
    if nodes == [] then []
    else DisconnectEvents(nodes[..|nodes| - 1], from, to) + DisconnectOf(nodes[|nodes| - 1], from, to)
  }

  predicate InScope(s: Sample, stream: string, consumer: string, from: int, to: int) {
    (stream == "" || s.stream == stream) && (consumer == "" || s.consumer == consumer) && InWindow(s.at, from, to)
  }

  function ScopedSamples(samples: seq<Sample>, stream: string, consumer: string, from: int, to: int): seq<Sample> {
    if samples == [] then []
    else
      ScopedSamples(samples[..|samples| - 1], stream, consumer, from, to)
      + if InScope(samples[|samples| - 1], stream, consumer, from, to) then [samples[|samples| - 1]] else []
  }

  function Scoped(input: Input): seq<Sample> {
    ScopedSamples(input.samples, TrimSpace(input.stream), TrimSpace(input.consumer), input.from, input.to)
  }

  function EventsAt(samples: seq<Sample>, hits: seq<nat>, category: Category, caption: string): seq<Event>
    requires forall h | h in hits :: h < |samples|
  {
    seq(|hits|, i requires 0 <= i < |hits| => assert hits[i] in hits; Event(samples[hits[i]].at, category, caption))
  }

  function Lags(samples: seq<Sample>): (v: seq<real>)
    ensures |v| == |samples|
  {
    seq(|samples|, i requires 0 <= i < |samples| => samples[i].lag)
  }

  function Redeliveries(samples: seq<Sample>): (v: seq<real>)
    ensures |v| == |samples|
  {
    seq(|samples|, i requires 0 <= i < |samples| => samples[i].redelivered)
  }

  lemma HitsInRange(samples: seq<Sample>)
    ensures forall h | h in Firsts(Lags(samples), LagJump, |samples|) :: h < |samples|
    ensures forall h | h in Firsts(Redeliveries(samples), RedeliveryJump, |samples|) :: h < |samples|
    ensures forall h | h in SecondFlats(samples, |samples|) :: h < |samples|
  {
    FirstsAre(Lags(samples), LagJump, |samples|);
    FirstsAre(Redeliveries(samples), RedeliveryJump, |samples|);
    forall h: nat | h in SecondFlats(samples, |samples|)
      ensures h < |samples|
    {
      SecondFlatsAre(samples, |samples|, h);
    }
  }

  function Detected(samples: seq<Sample>): seq<Event> {
    HitsInRange(samples);
    EventsAt(samples, Firsts(Lags(samples), LagJump, |samples|), LagGrowth, "Consumer lag grows")
    + EventsAt(samples, Firsts(Redeliveries(samples), RedeliveryJump, |samples|), RedeliverySpike, "Redeliveries spike")
    + EventsAt(samples, SecondFlats(samples, |samples|), ProcessingStopped, "Processing stops")
  }

  // The audit trail stands in only when no deploy is annotated.
  function Marks(input: Input): seq<Event> {
    var deploys := DeployEvents(input.annotations, input.from, input.to);
    if deploys != [] then deploys else ChangeEvents(input.audit, input.from, input.to)
  }

  function Candidates(input: Input, ordered: seq<Sample>): seq<Event> {
    Marks(input) + Detected(ordered) + DisconnectEvents(input.nodes, input.from, input.to)
  }

  /* ---- deduplication and order ---- */

  const SECOND := 1_000_000_000

  type Key = (Category, string, int)

  // Unix seconds, rounded down.
  function KeyOf(e: Event): Key { (e.category, e.caption, e.at / SECOND) }

  function KeysOf(events: seq<Event>): set<Key> { set e | e in events :: KeyOf(e) }

  function Dedupe(events: seq<Event>): seq<Event> {
    if events == [] then []
    else
      var n := |events| - 1;
      Dedupe(events[..n]) + if KeyOf(events[n]) in KeysOf(events[..n]) then [] else [events[n]]
  }

  predicate Before(a: Event, b: Event) { a.at < b.at || (a.at == b.at && Rank(a.category) < Rank(b.category)) }

  // Behind everything that is not after it.
  function Insert(sorted: seq<Event>, e: Event): seq<Event> {
    if sorted == [] || !Before(e, sorted[|sorted| - 1]) then sorted + [e]
    else Insert(sorted[..|sorted| - 1], e) + [sorted[|sorted| - 1]]
  }

  // sort.SliceStable
  function StableSort(events: seq<Event>): seq<Event> {
    if events == [] then [] else Insert(StableSort(events[..|events| - 1]), events[|events| - 1])
  }

  predicate Sorted(events: seq<Event>) { forall i, j | 0 <= i < j < |events| :: !Before(events[j], events[i]) }

  predicate DistinctKeys(events: seq<Event>) {
    forall i, j | 0 <= i < j < |events| :: KeyOf(events[i]) != KeyOf(events[j])
  }

  lemma {:induction false} InsertBag(sorted: seq<Event>, e: Event)
    ensures multiset(Insert(sorted, e)) == multiset(sorted) + multiset{e}
  {
    if sorted != [] && Before(e, sorted[|sorted| - 1]) {
      var n := |sorted| - 1;
      InsertBag(sorted[..n], e);
      assert sorted == sorted[..n] + [sorted[n]];
    }
  }

  lemma {:induction false} InsertMembers(sorted: seq<Event>, e: Event)
    ensures forall i | 0 <= i < |Insert(sorted, e)| :: Insert(sorted, e)[i] in sorted || Insert(sorted, e)[i] == e
  {
    if sorted != [] && Before(e, sorted[|sorted| - 1]) {
      var n := |sorted| - 1;
      InsertMembers(sorted[..n], e);
      var r := Insert(sorted[..n], e);
      forall i | 0 <= i < |r| ensures r[i] in sorted || r[i] == e { assert r[i] in sorted[..n] || r[i] == e; }
    }
  }

  lemma {:induction false} InsertKeepsOrder(sorted: seq<Event>, e: Event)
    requires Sorted(sorted)
    ensures Sorted(Insert(sorted, e))
  {
    if sorted != [] && Before(e, sorted[|sorted| - 1]) {
      var n := |sorted| - 1;
      InsertKeepsOrder(sorted[..n], e);
      InsertMembers(sorted[..n], e);
      var r := Insert(sorted[..n], e);
      forall i | 0 <= i < |r| ensures !Before(sorted[n], r[i]) { assert r[i] in sorted[..n] || r[i] == e; }
    }
  }

  lemma {:induction false} SortFacts(events: seq<Event>)
    ensures Sorted(StableSort(events)) && multiset(StableSort(events)) == multiset(events)
  {
    if events != [] {
      var n := |events| - 1;
      SortFacts(events[..n]);
      InsertKeepsOrder(StableSort(events[..n]), events[n]);
      InsertBag(StableSort(events[..n]), events[n]);
      assert events == events[..n] + [events[n]];
    }
  }

  function Tie(e: Event, at: int, c: Category): seq<Event> { if e.at == at && e.category == c then [e] else [] }

  // The events of one instant and category, in order.
  function Ties(events: seq<Event>, at: int, c: Category): seq<Event> {
    if events == [] then [] else Ties(events[..|events| - 1], at, c) + Tie(events[|events| - 1], at, c)
  }

  lemma TiesSnoc(events: seq<Event>, e: Event, at: int, c: Category)
    ensures Ties(events + [e], at, c) == Ties(events, at, c) + Tie(e, at, c)
  {
    assert (events + [e])[..|events|] == events;
  }

  lemma TiesSwap(ties: seq<Event>, e: Event, f: Event, at: int, c: Category)
    requires Before(e, f)
    ensures ties + Tie(e, at, c) + Tie(f, at, c) == ties + Tie(f, at, c) + Tie(e, at, c)
  {
    assert Tie(e, at, c) == [] || Tie(f, at, c) == [];
  }

  lemma {:induction false} InsertKeepsTies(sorted: seq<Event>, e: Event, at: int, c: Category)
    ensures Ties(Insert(sorted, e), at, c) == Ties(sorted, at, c) + Tie(e, at, c)
  {
    if sorted == [] || !Before(e, sorted[|sorted| - 1]) {
      TiesSnoc(sorted, e, at, c);
    } else {
      var n := |sorted| - 1;
      InsertKeepsTies(sorted[..n], e, at, c);
      TiesSnoc(Insert(sorted[..n], e), sorted[n], at, c);
      TiesSwap(Ties(sorted[..n], at, c), e, sorted[n], at, c);
    }
  }

  // The sort is stable.
  lemma {:induction false} SortKeepsTies(events: seq<Event>, at: int, c: Category)
    ensures Ties(StableSort(events), at, c) == Ties(events, at, c)
  {
    if events != [] {
      var n := |events| - 1;
      SortKeepsTies(events[..n], at, c);
      InsertKeepsTies(StableSort(events[..n]), events[n], at, c);
    }
  }

  lemma KeysSnoc(events: seq<Event>, e: Event)
    ensures KeysOf(events + [e]) == KeysOf(events) + {KeyOf(e)}
  {
    assert e in events + [e];
    forall k | k in KeysOf(events) ensures k in KeysOf(events + [e]) {
      var x :| x in events && KeyOf(x) == k;
      assert x in events + [e];
    }
  }

  lemma {:induction false} DedupeFacts(events: seq<Event>)
    ensures KeysOf(Dedupe(events)) == KeysOf(events)
    ensures DistinctKeys(Dedupe(events)) && forall e | e in Dedupe(events) :: e in events
  {
    if events != [] {
      var n := |events| - 1;
      DedupeFacts(events[..n]);
      assert events == events[..n] + [events[n]];
      var d := Dedupe(events[..n]);
      KeysSnoc(events[..n], events[n]);
      KeysSnoc(d, events[n]);
      forall i | 0 <= i < |d| ensures KeyOf(d[i]) in KeysOf(events[..n]) { assert d[i] in d; }
    }
  }

  predicate AllIn(events: seq<Event>, from: int, to: int) {
    forall i | 0 <= i < |events| :: InWindow(events[i].at, from, to)
  }

  lemma AllInConcat(a: seq<Event>, b: seq<Event>, from: int, to: int)
    requires AllIn(a, from, to) && AllIn(b, from, to)
    ensures AllIn(a + b, from, to)
  {}

  lemma {:induction false} GatheredIn<T>(xs: seq<T>, of: T -> seq<Event>, all: seq<T> -> seq<Event>, e: Event)
    requires all([]) == [] && forall ys, y :: all(ys + [y]) == all(ys) + of(y)
    ensures e in all(xs) <==> exists x :: x in xs && e in of(x)
  {
    if xs != [] {
      var n := |xs| - 1;
      assert xs == xs[..n] + [xs[n]];
      GatheredIn(xs[..n], of, all, e);
      assert all(xs[..n] + [xs[n]]) == all(xs[..n]) + of(xs[n]);
    }
  }

  // e marks a deploy in the window; an empty kind counts as a deploy.
  predicate MarksDeploy(a: Annotation, from: int, to: int, e: Event) {
    && TrimSpace(a.kind) in ["", "deploy"] && from <= a.at <= to
    && e.at == a.at && e.category == Deploy
    && e.caption == if TrimSpace(a.title) == "" then "Deploy" else TrimSpace(a.title)
  }

  lemma OneDeploy(a: Annotation, from: int, to: int, e: Event)
    ensures e in DeployOf(a, from, to) <==> MarksDeploy(a, from, to, e)
  {}

  lemma DeployIn(anns: seq<Annotation>, from: int, to: int, e: Event)
    ensures e in DeployEvents(anns, from, to) <==> exists a :: a in anns && MarksDeploy(a, from, to, e)
  {
    var of := (a: Annotation) => DeployOf(a, from, to);
    var all := (s: seq<Annotation>) => DeployEvents(s, from, to);
    forall s, a ensures all(s + [a]) == all(s) + of(a) { assert (s + [a])[..|s|] == s; }
    GatheredIn(anns, of, all, e);
    forall a ensures e in of(a) <==> MarksDeploy(a, from, to, e) { OneDeploy(a, from, to, e); }
  }

  // e marks a change in the window that names an action.
  predicate MarksChange(a: AuditChange, from: int, to: int, e: Event) {
    TrimSpace(a.action) != "" && from <= a.at <= to && e.at == a.at && e.category == Change
        && e.caption == AuditLabel(a)
  }

  lemma OneChange(a: AuditChange, from: int, to: int, e: Event)
    ensures e in ChangeOf(a, from, to) <==> MarksChange(a, from, to, e)
  {}

  lemma ChangeIn(audit: seq<AuditChange>, from: int, to: int, e: Event)
    ensures e in ChangeEvents(audit, from, to) <==> exists a :: a in audit && MarksChange(a, from, to, e)
  {
    var of := (a: AuditChange) => ChangeOf(a, from, to);
    var all := (s: seq<AuditChange>) => ChangeEvents(s, from, to);
    forall s, a ensures all(s + [a]) == all(s) + of(a) { assert (s + [a])[..|s|] == s; }
    GatheredIn(audit, of, all, e);
    forall a ensures e in of(a) <==> MarksChange(a, from, to, e) { OneChange(a, from, to, e); }
  }

  // e marks a disconnect in the window.
  predicate MarksDisconnect(d: NodeEvent, from: int, to: int, e: Event) {
    && d.kind == "disconnect" && from <= d.at <= to && e.at == d.at && e.category == NodeDisconnect
    && e.caption == (if TrimSpace(d.name) == "" then "Node" else TrimSpace(d.name)) + " disconnects"
  }

  lemma OneDisconnect(d: NodeEvent, from: int, to: int, e: Event)
    ensures e in DisconnectOf(d, from, to) <==> MarksDisconnect(d, from, to, e)
  {}

  lemma DisconnectIn(nodes: seq<NodeEvent>, from: int, to: int, e: Event)
    ensures e in DisconnectEvents(nodes, from, to) <==> exists d :: d in nodes && MarksDisconnect(d, from, to, e)
  {
    var of := (d: NodeEvent) => DisconnectOf(d, from, to);
    var all := (s: seq<NodeEvent>) => DisconnectEvents(s, from, to);
    forall s, d ensures all(s + [d]) == all(s) + of(d) { assert (s + [d])[..|s|] == s; }
    GatheredIn(nodes, of, all, e);
    forall d ensures e in of(d) <==> MarksDisconnect(d, from, to, e) { OneDisconnect(d, from, to, e); }
  }

  lemma {:induction false} DeploysIn(anns: seq<Annotation>, from: int, to: int)
    ensures AllIn(DeployEvents(anns, from, to), from, to)
  {
    if anns != [] { DeploysIn(anns[..|anns| - 1], from, to); }
  }

  lemma {:induction false} ChangesIn(audit: seq<AuditChange>, from: int, to: int)
    ensures AllIn(ChangeEvents(audit, from, to), from, to)
  {
    if audit != [] { ChangesIn(audit[..|audit| - 1], from, to); }
  }

  lemma {:induction false} DisconnectsIn(nodes: seq<NodeEvent>, from: int, to: int)
    ensures AllIn(DisconnectEvents(nodes, from, to), from, to)
  {
    if nodes != [] { DisconnectsIn(nodes[..|nodes| - 1], from, to); }
  }

  lemma {:induction false} ScopedIn(samples: seq<Sample>, stream: string, consumer: string, from: int, to: int,
                                    s: Sample)
    ensures s in ScopedSamples(samples, stream, consumer, from, to)
            <==> s in samples && InScope(s, stream, consumer, from, to)
  {
    if samples != [] {
      var n := |samples| - 1;
      ScopedIn(samples[..n], stream, consumer, from, to, s);
      assert samples == samples[..n] + [samples[n]];
    }
  }

  predicate InTime(samples: seq<Sample>) { forall i, j | 0 <= i < j < |samples| :: samples[i].at <= samples[j].at }

  // sort.Slice leaves the order of simultaneous samples open.
  ghost predicate OrderedSamples(samples: seq<Sample>, ordered: seq<Sample>) {
    InTime(ordered) && multiset(ordered) == multiset(samples)
  }

  lemma EventsAtIn(samples: seq<Sample>, hits: seq<nat>, category: Category, caption: string, from: int, to: int)
    requires forall h | h in hits :: h < |samples|
    requires forall i | 0 <= i < |samples| :: InWindow(samples[i].at, from, to)
    ensures AllIn(EventsAt(samples, hits, category, caption), from, to)
  {
    forall i | 0 <= i < |hits|
      ensures hits[i] < |samples| && InWindow(samples[hits[i]].at, from, to)
    {
      assert hits[i] in hits;
    }
  }

  lemma DetectedIn(input: Input, ordered: seq<Sample>)
    requires OrderedSamples(Scoped(input), ordered)
    ensures AllIn(Detected(ordered), input.from, input.to)
  {
    forall i | 0 <= i < |ordered| ensures InWindow(ordered[i].at, input.from, input.to) {
      assert ordered[i] in multiset(ordered);
      assert ordered[i] in Scoped(input);
      ScopedIn(input.samples, TrimSpace(input.stream), TrimSpace(input.consumer), input.from, input.to, ordered[i]);
    }
    HitsInRange(ordered);
    var lag := Firsts(Lags(ordered), LagJump, |ordered|);
    var spikes := Firsts(Redeliveries(ordered), RedeliveryJump, |ordered|);
    var stops := SecondFlats(ordered, |ordered|);
    EventsAtIn(ordered, lag, LagGrowth, "Consumer lag grows", input.from, input.to);
    EventsAtIn(ordered, spikes, RedeliverySpike, "Redeliveries spike", input.from, input.to);
    EventsAtIn(ordered, stops, ProcessingStopped, "Processing stops", input.from, input.to);
    var a := EventsAt(ordered, lag, LagGrowth, "Consumer lag grows");
    var b := EventsAt(ordered, spikes, RedeliverySpike, "Redeliveries spike");
    AllInConcat(a, b, input.from, input.to);
    var c := EventsAt(ordered, stops, ProcessingStopped, "Processing stops");
    AllInConcat(a + b, c, input.from, input.to);
    assert Detected(ordered) == a + b + c;
  }

  function Timeline(input: Input, ordered: seq<Sample>): seq<Event> { StableSort(Dedupe(Candidates(input, ordered))) }

  // The timeline is in order, holds no two events of the same kind, label and second, stays inside the
  // window, and shows every candidate or another one with its key, and nothing else.
  lemma TimelineIsSound(input: Input, ordered: seq<Sample>)
    requires OrderedSamples(Scoped(input), ordered)
    ensures var t := Timeline(input, ordered);
            Sorted(t) && DistinctKeys(t) && AllIn(t, input.from, input.to)
            && KeysOf(t) == KeysOf(Candidates(input, ordered)) && forall e | e in t :: e in Candidates(input, ordered)
  {
    var all := Candidates(input, ordered);
    var kept := Dedupe(all);
    var t := Timeline(input, ordered);
    DedupeFacts(all);
    SortFacts(kept);
    SameMembers(t, kept);
    DistinctSurvives(kept, t);
    DeploysIn(input.annotations, input.from, input.to);
    ChangesIn(input.audit, input.from, input.to);
    DetectedIn(input, ordered);
    DisconnectsIn(input.nodes, input.from, input.to);
    AllInConcat(Marks(input), Detected(ordered), input.from, input.to);
    AllInConcat(Marks(input) + Detected(ordered), DisconnectEvents(input.nodes, input.from, input.to),
                input.from, input.to);
    forall i | 0 <= i < |t| ensures InWindow(t[i].at, input.from, input.to) { assert t[i] in all; }
  }

  lemma SameMembers(a: seq<Event>, b: seq<Event>)
    requires multiset(a) == multiset(b)
    ensures (forall e :: e in a <==> e in b) && KeysOf(a) == KeysOf(b)
  {
    forall e ensures e in a <==> e in b { assert e in a <==> e in multiset(a); assert e in b <==> e in multiset(b); }
  }

  lemma {:induction false} OnceEach(events: seq<Event>, e: Event)
    requires DistinctKeys(events)
    ensures multiset(events)[e] <= 1
  {
    if events != [] {
      var n := |events| - 1;
      OnceEach(events[..n], e);
      assert events == events[..n] + [events[n]];
      if e == events[n] {
        forall i | 0 <= i < n ensures events[..n][i] != e { assert KeyOf(events[i]) != KeyOf(events[n]); }
        assert e !in events[..n];
      }
    }
  }

  lemma Twice(events: seq<Event>, i: nat, j: nat)
    requires i < j < |events| && events[i] == events[j]
    ensures multiset(events)[events[i]] >= 2
  {
    assert events == events[..j] + events[j..];
    assert events[i] in events[..j] && events[i] in events[j..] by {
      assert events[..j][i] == events[i] && events[j..][0] == events[j];
    }
  }

  lemma DistinctSurvives(a: seq<Event>, b: seq<Event>)
    requires DistinctKeys(a) && multiset(a) == multiset(b)
    ensures DistinctKeys(b)
  {
    SameMembers(a, b);
    forall i, j | 0 <= i < j < |b| ensures KeyOf(b[i]) != KeyOf(b[j]) {
      assert b[i] in a && b[j] in a;
      if b[i] == b[j] {
        OnceEach(a, b[i]);
        Twice(b, i, j);
        assert false;
      }
    }
  }

  /* ---- the loops ---- */

  method FilterDeployAnnotations(anns: seq<Annotation>, from: int, to: int) returns (events: seq<Event>)
    ensures events == DeployEvents(anns, from, to)
  {
    events := [];
    for i := 0 to |anns|
      invariant events == DeployEvents(anns[..i], from, to)
    {
      assert anns[..i + 1][..i] == anns[..i];
      var typ := TrimSpace(anns[i].kind);
      if typ == "" { typ := "deploy"; }
      if typ != "deploy" { continue; }
      if anns[i].at < from || anns[i].at > to { continue; }
      events := events + [Event(anns[i].at, Deploy, OrElse(TrimSpace(anns[i].title), "Deploy"))];
    }
    assert anns[..|anns|] == anns;
  }

  method FilterAuditInWindow(audit: seq<AuditChange>, from: int, to: int) returns (events: seq<Event>)
    ensures events == ChangeEvents(audit, from, to)
  {
    events := [];
    for i := 0 to |audit|
      invariant events == ChangeEvents(audit[..i], from, to)
    {
      assert audit[..i + 1][..i] == audit[..i];
      if audit[i].at < from || audit[i].at > to { continue; }
      if TrimSpace(audit[i].action) == "" { continue; }
      events := events + [Event(audit[i].at, Change, AuditLabel(audit[i]))];
    }
    assert audit[..|audit|] == audit;
  }

  method Disconnects(nodes: seq<NodeEvent>, from: int, to: int) returns (events: seq<Event>)
    ensures events == DisconnectEvents(nodes, from, to)
  {
    events := [];
    for i := 0 to |nodes|
      invariant events == DisconnectEvents(nodes[..i], from, to)
    {
      assert nodes[..i + 1][..i] == nodes[..i];
      if nodes[i].kind != "disconnect" { continue; }
      if nodes[i].at < from || nodes[i].at > to { continue; }
      events := events +
        [Event(nodes[i].at, NodeDisconnect, OrElse(TrimSpace(nodes[i].name), "Node") + " disconnects")];
    }
    assert nodes[..|nodes|] == nodes;
  }

  method FilterConsumerSamples(samples: seq<Sample>, stream: string, consumer: string, from: int, to: int)
    returns (scoped: seq<Sample>)
    ensures scoped == ScopedSamples(samples, TrimSpace(stream), TrimSpace(consumer), from, to)
  {
    var st, co := TrimSpace(stream), TrimSpace(consumer);
    scoped := [];
    for i := 0 to |samples|
      invariant scoped == ScopedSamples(samples[..i], st, co, from, to)
    {
      assert samples[..i + 1][..i] == samples[..i];
      if st != "" && samples[i].stream != st { continue; }
      if co != "" && samples[i].consumer != co { continue; }
      if samples[i].at < from || samples[i].at > to { continue; }
      scoped := scoped + [samples[i]];
    }
    assert samples[..|samples|] == samples;
  }

  method DedupeTimelineEvents(events: seq<Event>) returns (out: seq<Event>)
    ensures out == Dedupe(events)
  {
    out := [];
    var seen: set<Key> := {};
    for i := 0 to |events|
      invariant out == Dedupe(events[..i]) && seen == KeysOf(events[..i])
    {
      assert events[..i + 1][..i] == events[..i];
      assert events[..i + 1] == events[..i] + [events[i]];
      KeysSnoc(events[..i], events[i]);
      var k := KeyOf(events[i]);
      if k in seen { continue; }
      seen := seen + {k};
      out := out + [events[i]];
    }
    assert events[..|events|] == events;
  }

  function Spliced(sorted: seq<Sample>, n: nat, s: Sample): seq<Sample>
    requires n <= |sorted|
  {
    sorted[..n] + [s] + sorted[n..]
  }

  lemma SplicedAt(sorted: seq<Sample>, n: nat, s: Sample, i: nat)
    requires n <= |sorted| && i <= |sorted|
    ensures Spliced(sorted, n, s)[i] == if i < n then sorted[i] else if i == n then s else sorted[i - 1]
  {}

  lemma SplicedBag(sorted: seq<Sample>, n: nat, s: Sample)
    requires n <= |sorted|
    ensures multiset(Spliced(sorted, n, s)) == multiset(sorted) + multiset{s}
  {
    assert sorted == sorted[..n] + sorted[n..];
  }

  lemma SplicedInTime(sorted: seq<Sample>, n: nat, s: Sample)
    requires InTime(sorted) && n <= |sorted|
    requires (n > 0 ==> sorted[n - 1].at <= s.at) && (n < |sorted| ==> s.at <= sorted[n].at)
    ensures InTime(Spliced(sorted, n, s))
  {
    var r := Spliced(sorted, n, s);
    forall i, j | 0 <= i < j < |r| ensures r[i].at <= r[j].at {
      SplicedAt(sorted, n, s, i);
      SplicedAt(sorted, n, s, j);
    }
  }

  method InsertSample(sorted: seq<Sample>, s: Sample) returns (r: seq<Sample>)
    requires InTime(sorted)
    ensures InTime(r) && multiset(r) == multiset(sorted) + multiset{s}
  {
    var n := |sorted|;
    while n > 0 && s.at < sorted[n - 1].at
      invariant 0 <= n <= |sorted| && forall k | n <= k < |sorted| :: s.at < sorted[k].at
    {
      n := n - 1;
    }
    SplicedInTime(sorted, n, s);
    SplicedBag(sorted, n, s);
    r := Spliced(sorted, n, s);
  }

  // One of the orders sort.Slice may produce.
  method SortSamples(samples: seq<Sample>) returns (ordered: seq<Sample>)
    ensures OrderedSamples(samples, ordered)
  {
    ordered := [];
    for i := 0 to |samples|
      invariant OrderedSamples(samples[..i], ordered)
    {
      assert samples[..i + 1] == samples[..i] + [samples[i]];
      ordered := InsertSample(ordered, samples[i]);
    }
    assert samples[..|samples|] == samples;
  }

  method ComputeIncidentTimeline(input: Input)
    returns (timeline: seq<Event>, usedDeploy: bool, usedAudit: bool, ghost ordered: seq<Sample>)
    ensures OrderedSamples(Scoped(input), ordered) && timeline == Timeline(input, ordered)
    ensures usedDeploy <==> DeployEvents(input.annotations, input.from, input.to) != []
    ensures usedAudit <==> !usedDeploy && ChangeEvents(input.audit, input.from, input.to) != []
  {
    usedAudit := false;
    var events := FilterDeployAnnotations(input.annotations, input.from, input.to);
    usedDeploy := |events| > 0;
    if !usedDeploy {
      events := FilterAuditInWindow(input.audit, input.from, input.to);
      usedAudit := |events| > 0;
    }
    var scoped := FilterConsumerSamples(input.samples, input.stream, input.consumer, input.from, input.to);
    var samples := SortSamples(scoped);
    ordered := samples;
    var detected := Detect(samples);
    var disconnects := Disconnects(input.nodes, input.from, input.to);
    var all := DedupeTimelineEvents(events + detected + disconnects);
    timeline := StableSort(all);
  }

  method Detect(samples: seq<Sample>) returns (events: seq<Event>)
    ensures events == Detected(samples)
  {
    HitsInRange(samples);
    var lag := DetectLagGrowth(Lags(samples));
    var spikes := DetectRedeliverySpike(Redeliveries(samples));
    var stops := DetectProcessingStopped(samples);
    events := EventsAt(samples, lag, LagGrowth, "Consumer lag grows")
      + EventsAt(samples, spikes, RedeliverySpike, "Redeliveries spike")
      + EventsAt(samples, stops, ProcessingStopped, "Processing stops");
  }
}
