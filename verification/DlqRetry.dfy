/**
 Dead-letter queue retry: collecting sequences page by page, republishing each message and deleting it,
 with a failure possible at every call.
 */
module DlqRetry {
  import opened Wrappers
  import opened Text

  // Messages are named by where they were stored, stream and sequence. Every call may fail; a failing publish
  // or delete may or may not have taken effect on the server.

  const DEFAULT_LIST_LIMIT := 100
  const MAX_LIST_LIMIT := 500
  const DEFAULT_RETRY_ALL_LIMIT := 10000
  const MAX_RETRY_ALL_LIMIT := 10000

  const HEADER_ORIGINAL_SUBJECT := "X-NATS-Original-Subject"
  const HEADER_TRACE_ID := "Trace-Id"
  const HEADER_CONTENT_TYPE := "Nats-Content-Type"
  const HEADER_MSG_ID := "Nats-Msg-Id"
  const METADATA_ROLE_KEY := "nats-consol/role"

  datatype Stored = Stored(headers: map<string, string>, data: seq<int>)

  datatype Origin = Origin(stream: string, seqNo: nat)

  // `of` is bookkeeping: the queued message this publication was made from.
  datatype Publication = Publication(subject: string, data: seq<int>, headers: map<string, string>, of: Origin)

  datatype Error =
    | NotDlqStream | RetryEmpty | ZeroSeq | CallFailed
    | MessageNotFound | MissingOriginalSubject | PublishFailed | RepublishedNotDeleted

  /* ---- existing sequences in ascending order ---- */

  function Ascending(keys: set<nat>, lo: nat, hi: nat): seq<nat>
    decreases hi + 1 - lo
  {
    if lo > hi then [] else if lo in keys then [lo] + Ascending(keys, lo + 1, hi) else Ascending(keys, lo + 1, hi)
  }

  function First<T>(n: nat, xs: seq<T>): seq<T> {
    if n <= |xs| then xs[..n] else xs
  }

  lemma {:induction false} AscendingNone(keys: set<nat>, lo: nat, hi: nat)
    requires forall k <- keys :: !(lo <= k <= hi)
    ensures Ascending(keys, lo, hi) == []
    decreases hi + 1 - lo
  {
    if lo <= hi { AscendingNone(keys, lo + 1, hi); }
  }

  lemma {:induction false} AscendingFacts(keys: set<nat>, lo: nat, hi: nat)
    ensures var xs := Ascending(keys, lo, hi);
            && (forall k :: k in xs <==> k in keys && lo <= k <= hi)
            && (forall i, j | 0 <= i < j < |xs| :: xs[i] < xs[j])
    decreases hi + 1 - lo
  {
    if lo <= hi {
      AscendingFacts(keys, lo + 1, hi);
      var rest := Ascending(keys, lo + 1, hi);
      var xs := Ascending(keys, lo, hi);
      if lo in keys {
        forall i, j | 0 <= i < j < |xs| ensures xs[i] < xs[j] {
          assert xs[j] == rest[j - 1];
          if i > 0 { assert xs[i] == rest[i - 1]; } else { assert rest[j - 1] in rest; }
        }
      }
    }
  }

  // The numbers the server reports: how many messages there are, and their count.
  lemma {:induction false} AscendingCount(keys: set<nat>, lo: nat, hi: nat)
    requires forall k <- keys :: lo <= k <= hi
    ensures |Ascending(keys, lo, hi)| == |keys|
    decreases hi + 1 - lo
  {
    if lo <= hi {
      var less := keys - {lo};
      AscendingCount(less, lo + 1, hi);
      AscendingSame(keys, less, lo + 1, hi);
      if lo in keys { assert keys == less + {lo}; } else { assert less == keys; }
    } else {
      assert keys == {} by { forall k ensures k !in keys {} }
    }
  }

  lemma {:induction false} AscendingSame(a: set<nat>, b: set<nat>, lo: nat, hi: nat)
    requires forall k | lo <= k <= hi :: k in a <==> k in b
    ensures Ascending(a, lo, hi) == Ascending(b, lo, hi)
    decreases hi + 1 - lo
  {
    if lo <= hi { AscendingSame(a, b, lo + 1, hi); }
  }

  lemma {:induction false} AscendingSkip(keys: set<nat>, lo: nat, mid: nat, hi: nat)
    requires lo <= mid && forall k <- keys :: !(lo <= k < mid)
    ensures Ascending(keys, lo, hi) == Ascending(keys, mid, hi)
    decreases mid - lo
  {
    if lo < mid {
      AscendingSkip(keys, lo + 1, mid, hi);
      if lo > hi { assert Ascending(keys, mid, hi) == []; }
    }
  }

  // Starting again one past the k-th element yields what follows it.
  lemma {:induction false} AscendingAfter(keys: set<nat>, lo: nat, hi: nat, k: nat)
    requires 0 < k <= |Ascending(keys, lo, hi)|
    ensures Ascending(keys, Ascending(keys, lo, hi)[k - 1] + 1, hi) == Ascending(keys, lo, hi)[k..]
    decreases hi + 1 - lo
  {
    if lo in keys {
      if k > 1 { AscendingAfter(keys, lo + 1, hi, k - 1); }
    } else {
      AscendingAfter(keys, lo + 1, hi, k);
    }
  }

  /* ---- requests ---- */

  function NormalizeListLimit(limit: int): (n: nat)
    ensures 1 <= n <= 500 && (1 <= limit <= 500 ==> n == limit)
    ensures (limit <= 0 ==> n == 100) && (limit > 500 ==> n == 500)
  {
    if limit <= 0 then DEFAULT_LIST_LIMIT else if limit > MAX_LIST_LIMIT then MAX_LIST_LIMIT else limit
  }

  datatype Request = Request(seqs: seq<nat>, limit: int, all: bool) {
    function Validate(): Option<Error> {
      if all then None else if seqs == [] then Some(RetryEmpty) else if 0 in seqs then Some(ZeroSeq) else None
    }

    function NormalizedLimit(): (n: nat)
      ensures 1 <= n <= 10_000 && n == if 1 <= limit <= 10_000 then limit else 10_000
    {
      if limit <= 0 then DEFAULT_RETRY_ALL_LIMIT else if limit > MAX_RETRY_ALL_LIMIT then MAX_RETRY_ALL_LIMIT else limit
    }
  }

  // What may be asked: everything, or some sequences, none of them 0.
  lemma RequestsExactly(req: Request)
    ensures req.Validate().None? <==> req.all || (req.seqs != [] && forall i | 0 <= i < |req.seqs| :: req.seqs[i] > 0)
    ensures req.Validate() == Some(RetryEmpty) <==> !req.all && |req.seqs| == 0
  {
    if 0 in req.seqs { var i :| 0 <= i < |req.seqs| && req.seqs[i] == 0; }
  }

  predicate HasSuffix(s: string, suffix: string) { |s| >= |suffix| && s[|s| - |suffix|..] == suffix }

  predicate IsDlqStream(name: string, metadata: map<string, string>) {
    HasSuffix(name, "_DLQ") || (METADATA_ROLE_KEY in metadata && metadata[METADATA_ROLE_KEY] == "dlq")
  }

  // A dead-letter stream is one whose name ends in _DLQ, or one that is marked as such.
  lemma DlqStreamsExactly(name: string, metadata: map<string, string>)
    ensures IsDlqStream(name, metadata) <==>
              || ("nats-consol/role", "dlq") in metadata.Items
              || exists base: string :: name == base + "_DLQ"
  {
    if HasSuffix(name, "_DLQ") { assert name == name[..|name| - 4] + "_DLQ"; }
    if base: string :| name == base + "_DLQ" { assert name[|name| - 4..] == "_DLQ"; }
  }

  /* ---- republishing one message ---- */

  function Header(headers: map<string, string>, key: string): string {
    if key in headers then headers[key] else ""
  }

  function MsgId(o: Origin): string {
    "nats-consol-dlq-retry:" + o.stream + ":" + Decimal(o.seqNo)
  }

  function RetryPublishHeaders(headers: map<string, string>, o: Origin): map<string, string> {
    var trace := Header(headers, HEADER_TRACE_ID);
    var ct := Header(headers, HEADER_CONTENT_TYPE);
    (if trace != "" then map[HEADER_TRACE_ID := trace] else map[])
    + (if ct != "" then map[HEADER_CONTENT_TYPE := ct] else map[])
    + map[HEADER_MSG_ID := MsgId(o)]
  }

  function OriginalSubject(m: Stored): string {
    TrimSpace(Header(m.headers, HEADER_ORIGINAL_SUBJECT))
  }

  function Republication(o: Origin, m: Stored): Publication {
    Publication(OriginalSubject(m), m.data, RetryPublishHeaders(m.headers, o), o)
  }

  lemma HeaderNames()
    ensures HEADER_MSG_ID != HEADER_TRACE_ID && HEADER_MSG_ID != HEADER_CONTENT_TYPE
            && HEADER_TRACE_ID != HEADER_CONTENT_TYPE
  {
    assert HEADER_MSG_ID[0] == 'N' && HEADER_TRACE_ID[0] == 'T';
    assert HEADER_MSG_ID[5] == 'M' && HEADER_CONTENT_TYPE[5] == 'C';
  }

  // A retry keeps the trace id and the content type, drops everything else, and sets the Msg-Id.
  lemma RetryHeadersExactly(headers: map<string, string>, o: Origin, key: string)
    ensures key in RetryPublishHeaders(headers, o) <==>
              key == HEADER_MSG_ID
              || ((key == HEADER_TRACE_ID || key == HEADER_CONTENT_TYPE) && Header(headers, key) != "")
    ensures key in RetryPublishHeaders(headers, o) ==>
              RetryPublishHeaders(headers, o)[key] == if key == HEADER_MSG_ID then MsgId(o) else headers[key]
  {
    HeaderNames();
  }

  // No two queued messages share a Msg-Id, whatever characters the stream names contain.
  lemma MsgIdInjective(a: Origin, b: Origin)
    requires MsgId(a) == MsgId(b)
    ensures a == b
  {
    var p := "nats-consol-dlq-retry:";
    var da, db := Decimal(a.seqNo), Decimal(b.seqNo);
    var x, y := a.stream + ":" + da, b.stream + ":" + db;
    assert MsgId(a) == p + x && MsgId(b) == p + y;
    assert x == MsgId(a)[|p|..] && y == MsgId(b)[|p|..];
    LastColon(a.stream, da, b.stream, db);
    DecimalInjective(a.seqNo, b.seqNo);
  }

  lemma LastColon(a: string, d: string, b: string, e: string)
    requires a + ":" + d == b + ":" + e && ':' !in d && ':' !in e
    ensures a == b && d == e
  {
    var s := a + ":" + d;
    assert s[|a|] == ':' && s[|b|] == ':';
    forall i | |a| < i < |s| ensures s[i] != ':' { assert s[i] == d[i - |a| - 1]; }
    forall i | |b| < i < |s| ensures s[i] != ':' { assert s[i] == e[i - |b| - 1]; }
    assert s[..|a|] == a && s[..|b|] == b && s[|a| + 1..] == d && s[|b| + 1..] == e;
  }

  /* ---- the queue, the target and every history of operations ---- */

  datatype Fault = NoFault | NotApplied | AppliedAnyway

  datatype Faults = Faults(get: bool, publish: Fault, delete: Fault)

  datatype World = World(queue: map<Origin, Stored>, arrived: map<Origin, Stored>, published: seq<Publication>)

  function Publish(w: World, o: Origin, m: Stored): World {
    w.(published := w.published + [Republication(o, m)])
  }

  function Delete(w: World, o: Origin): World {
    w.(queue := w.queue - {o})
  }

  datatype Effect = Untouched | Sent | SentAndDeleted

  // Read, publish, delete: each step runs only when the one before it reported success.
  function RetryEffect(w: World, o: Origin, f: Faults): (r: (Effect, Option<Error>))
    ensures !r.0.Untouched? ==> o in w.queue && OriginalSubject(w.queue[o]) != ""
    ensures r.1.None? ==> r.0.SentAndDeleted?
  {
    if f.get then (Untouched, Some(CallFailed))
    else if o !in w.queue then (Untouched, Some(MessageNotFound))
    else if OriginalSubject(w.queue[o]) == "" then (Untouched, Some(MissingOriginalSubject))
    else match f.publish
    case NotApplied => (Untouched, Some(PublishFailed))
    case AppliedAnyway => (Sent, Some(PublishFailed))
    case NoFault =>
      match f.delete
      case NoFault => (SentAndDeleted, None)
      case NotApplied => (Sent, Some(RepublishedNotDeleted))
      case AppliedAnyway => (SentAndDeleted, Some(RepublishedNotDeleted))
  }

  function RetryOne(w: World, o: Origin, f: Faults): World {
    match RetryEffect(w, o, f).0
    case Untouched => w
    case Sent => Publish(w, o, w.queue[o])
    case SentAndDeleted => Delete(Publish(w, o, w.queue[o]), o)
  }

  predicate HasTarget(m: Stored) {
    HEADER_ORIGINAL_SUBJECT in m.headers && TrimSpace(m.headers[HEADER_ORIGINAL_SUBJECT]) != ""
  }

  // Exactly when a retry publishes, what it publishes, and exactly when the message then leaves the queue.
  // Nothing else changes, and the answer tells apart the cases that matter to a caller.
  lemma RetryOutcome(w: World, o: Origin, f: Faults)
    ensures var (w', err) := (RetryOne(w, o, f), RetryEffect(w, o, f).1);
            var found := !f.get && o in w.queue;
            var sends := found && HasTarget(w.queue[o]) && !f.publish.NotApplied?;
            var drops := sends && f.publish.NoFault? && !f.delete.NotApplied?;
            && w'.arrived == w.arrived
            && (if sends then |w'.published| == |w.published| + 1 && w'.published[..|w.published|] == w.published
                              && Carries(w'.published[|w.published|], o, w.queue[o])
                else w'.published == w.published)
            && (forall x :: x in w'.queue <==> x in w.queue && !(drops && x == o))
            && (forall x <- w'.queue :: w'.queue[x] == w.queue[x])
            && (err == None <==> drops && f.delete.NoFault?)
            && (err == Some(RepublishedNotDeleted) <==> sends && f.publish.NoFault? && !f.delete.NoFault?)
            && (err == Some(MissingOriginalSubject) <==> found && !HasTarget(w.queue[o]))
  {
    assert TrimSpace("") == "";
  }

  function RetryAll(w: World, stream: string, seqs: seq<nat>, faults: seq<Faults>): World
    requires |faults| == |seqs|
  {
    if seqs == [] then w
    else
      var n := |seqs| - 1;
      RetryOne(RetryAll(w, stream, seqs[..n], faults[..n]), Origin(stream, seqs[n]), faults[n])
  }

  datatype Op =
    | Arrive(o: Origin, m: Stored)
    | Retry(stream: string, seqs: seq<nat>, faults: seq<Faults>)

  const EMPTY := World(map[], map[], [])

  // A sequence number of a stream is used once; a retry may ask for any sequences in any order, with
  // any faults.  Once an operation cannot happen the rest of the list is ignored.
  function History(ops: seq<Op>): World
    decreases |ops|
  {
    if ops == [] then EMPTY
    else
      var w := History(ops[..|ops| - 1]);
      match ops[|ops| - 1]
      case Arrive(o, m) => if o in w.arrived then w else w.(queue := w.queue[o := m], arrived := w.arrived[o := m])
      case Retry(stream, seqs, faults) => if |faults| == |seqs| then RetryAll(w, stream, seqs, faults) else w
  }

  // p is message m of o as it was queued: its original subject, its data, and the headers a retry keeps.
  predicate Carries(p: Publication, o: Origin, m: Stored) {
    && p.of == o && HEADER_ORIGINAL_SUBJECT in m.headers
    && p.subject == TrimSpace(m.headers[HEADER_ORIGINAL_SUBJECT]) && p.subject != ""
    && p.data == m.data && p.headers == RetryPublishHeaders(m.headers, o)
  }

  ghost predicate PublicationOk(arrived: map<Origin, Stored>, p: Publication) {
    p.of in arrived && Carries(p, p.of, arrived[p.of])
  }

  // Some publication in the list carries m.
  predicate SomeCarries(ps: seq<Publication>, o: Origin, m: Stored) {
    exists i | 0 <= i < |ps| :: Carries(ps[i], o, m)
  }

  ghost predicate WasSent(published: seq<Publication>, o: Origin) {
    exists i :: 0 <= i < |published| && published[i].of == o
  }

  ghost predicate Safe(w: World) {
    && (forall o <- w.queue :: o in w.arrived && w.queue[o] == w.arrived[o])
    && (forall o <- w.arrived :: o in w.queue || WasSent(w.published, o))
    && (forall i | 0 <= i < |w.published| :: PublicationOk(w.arrived, w.published[i]))
  }

  lemma PublishSafe(w: World, o: Origin)
    requires Safe(w) && o in w.queue && OriginalSubject(w.queue[o]) != ""
    ensures var w' := Publish(w, o, w.queue[o]);
            Safe(w') && WasSent(w'.published, o) && w'.arrived == w.arrived && w'.queue == w.queue
  {
    var ps := Publish(w, o, w.queue[o]).published;
    assert ps[|ps| - 1].of == o;
    forall x <- w.arrived ensures x in w.queue || WasSent(ps, x) {
      if x !in w.queue {
        var i :| 0 <= i < |w.published| && w.published[i].of == x;
        assert ps[i].of == x;
      }
    }
  }

  lemma DeleteSafe(w: World, o: Origin)
    requires Safe(w) && WasSent(w.published, o)
    ensures Safe(Delete(w, o)) && Delete(w, o).arrived == w.arrived
  {}

  lemma RetryOneSafe(w: World, o: Origin, f: Faults)
    requires Safe(w)
    ensures Safe(RetryOne(w, o, f)) && RetryOne(w, o, f).arrived == w.arrived
  {
    if !RetryEffect(w, o, f).0.Untouched? {
      PublishSafe(w, o);
      DeleteSafe(Publish(w, o, w.queue[o]), o);
    }
  }

  lemma {:induction false} RetryAllSafe(w: World, stream: string, seqs: seq<nat>, faults: seq<Faults>)
    requires Safe(w) && |faults| == |seqs|
    ensures Safe(RetryAll(w, stream, seqs, faults)) && RetryAll(w, stream, seqs, faults).arrived == w.arrived
    decreases |seqs|
  {
    if seqs != [] {
      var n := |seqs| - 1;
      RetryAllSafe(w, stream, seqs[..n], faults[..n]);
      RetryOneSafe(RetryAll(w, stream, seqs[..n], faults[..n]), Origin(stream, seqs[n]), faults[n]);
    }
  }

  lemma {:induction false} HistorySafe(ops: seq<Op>)
    ensures Safe(History(ops))
    decreases |ops|
  {
    if ops != [] {
      var w := History(ops[..|ops| - 1]);
      HistorySafe(ops[..|ops| - 1]);
      match ops[|ops| - 1]
      case Arrive(o, m) =>
        var w' := History(ops);
        forall x <- w'.arrived ensures x in w'.queue || WasSent(w'.published, x) {
          if x in w.arrived && x !in w.queue { assert WasSent(w.published, x); }
        }
      case Retry(stream, seqs, faults) => if |faults| == |seqs| { RetryAllSafe(w, stream, seqs, faults); }
    }
  }

  // Still queued unchanged, or published to its original subject with its own data and the headers of a retry.
  ghost predicate NotLost(w: World, o: Origin)
    requires o in w.arrived
  {
    || (o in w.queue && w.queue[o] == w.arrived[o])
    || SomeCarries(w.published, o, w.arrived[o])
  }

  lemma SafeLosesNothing(w: World, o: Origin)
    requires Safe(w) && o in w.arrived
    ensures NotLost(w, o)
  {
    if o !in w.queue {
      var i :| 0 <= i < |w.published| && w.published[i].of == o;
      assert PublicationOk(w.arrived, w.published[i]);
    }
  }

  // No message is lost in any history.
  lemma NoMessageLost(ops: seq<Op>, o: Origin)
    requires o in History(ops).arrived
    ensures NotLost(History(ops), o)
  {
    HistorySafe(ops);
    SafeLosesNothing(History(ops), o);
  }

  function IdOf(p: Publication): string { Header(p.headers, HEADER_MSG_ID) }

  function Ids(ps: seq<Publication>): seq<string> { seq(|ps|, i requires 0 <= i < |ps| => IdOf(ps[i])) }

  // What a target keeps that drops every publication whose Msg-Id it has already stored.
  function Deduplicated(ps: seq<Publication>): seq<Publication>
    decreases |ps|
  {
    if ps == [] then []
    else
      var kept := Deduplicated(ps[..|ps| - 1]);
      if IdOf(ps[|ps| - 1]) in Ids(kept) then kept else kept + [ps[|ps| - 1]]
  }

  lemma {:induction false} DeduplicatedKeepsOne(ps: seq<Publication>)
    ensures var kept := Deduplicated(ps);
            && (forall i | 0 <= i < |kept| :: kept[i] in ps)
            && (forall i, j | 0 <= i < j < |kept| :: IdOf(kept[i]) != IdOf(kept[j]))
            && (forall i | 0 <= i < |ps| :: IdOf(ps[i]) in Ids(kept))
    decreases |ps|
  {
    EveryIdIsKept(ps);
    if ps != [] {
      var n := |ps| - 1;
      var kept := Deduplicated(ps[..n]);
      DeduplicatedKeepsOne(ps[..n]);
      forall i | 0 <= i < |kept| ensures kept[i] in ps && IdOf(kept[i]) == Ids(kept)[i] { assert kept[i] in ps[..n]; }
    }
  }

  lemma {:induction false} EveryIdIsKept(ps: seq<Publication>)
    ensures forall i | 0 <= i < |ps| :: IdOf(ps[i]) in Ids(Deduplicated(ps))
    decreases |ps|
  {
    if ps != [] {
      var n := |ps| - 1;
      var kept := Deduplicated(ps[..n]);
      EveryIdIsKept(ps[..n]);
      forall i | 0 <= i < |ps| ensures IdOf(ps[i]) in Ids(Deduplicated(ps)) {
        if i < n {
          assert IdOf(ps[..n][i]) in Ids(kept);
          var j :| 0 <= j < |kept| && Ids(kept)[j] == IdOf(ps[i]);
          assert Ids(Deduplicated(ps))[j] == IdOf(ps[i]);
        } else if Deduplicated(ps) != kept {
          assert Ids(Deduplicated(ps))[|kept|] == IdOf(ps[n]);
        }
      }
    }
  }

  lemma PublishedIds(w: World, i: nat)
    requires Safe(w) && i < |w.published|
    ensures IdOf(w.published[i]) == MsgId(w.published[i].of)
  {
    var p := w.published[i];
    assert PublicationOk(w.arrived, p);
    RetryHeadersExactly(w.arrived[p.of].headers, p.of, HEADER_MSG_ID);
  }

  lemma SafeKeepsAtMostOne(w: World, i: nat, j: nat)
    requires Safe(w)
    requires var kept := Deduplicated(w.published); i < |kept| && j < |kept| && kept[i].of == kept[j].of
    ensures i == j
  {
    var kept := Deduplicated(w.published);
    DeduplicatedKeepsOne(w.published);
    var x :| 0 <= x < |w.published| && w.published[x] == kept[i];
    var y :| 0 <= y < |w.published| && w.published[y] == kept[j];
    PublishedIds(w, x);
    PublishedIds(w, y);
  }

  lemma SafeKeepsOnceGone(w: World, o: Origin)
    requires Safe(w) && o in w.arrived && o !in w.queue
    ensures SomeCarries(Deduplicated(w.published), o, w.arrived[o])
  {
    assert WasSent(w.published, o);
    var x :| 0 <= x < |w.published| && w.published[x].of == o;
    KeptFor(w, x);
  }

  // Behind a deduplicating target every message ends up at most once, and exactly once when it has
  // left the queue, however often retries were repeated or interrupted.
  lemma DeliveredAtMostOnce(ops: seq<Op>, i: nat, j: nat)
    requires var kept := Deduplicated(History(ops).published); i < |kept| && j < |kept| && kept[i].of == kept[j].of
    ensures i == j
  {
    HistorySafe(ops);
    SafeKeepsAtMostOne(History(ops), i, j);
  }

  lemma DeliveredOnceGone(ops: seq<Op>, o: Origin)
    requires o in History(ops).arrived && o !in History(ops).queue
    ensures SomeCarries(Deduplicated(History(ops).published), o, History(ops).arrived[o])
  {
    HistorySafe(ops);
    SafeKeepsOnceGone(History(ops), o);
  }

  // Some copy of a published message is kept, and it is the message as it was republished.
  lemma KeptFor(w: World, x: nat)
    requires Safe(w) && x < |w.published|
    ensures var o := w.published[x].of; o in w.arrived && SomeCarries(Deduplicated(w.published), o, w.arrived[o])
  {
    var y := KeptCopy(w.published, x);
    PublishedIds(w, x);
    PublishedIds(w, y);
    MsgIdInjective(w.published[x].of, w.published[y].of);
    assert PublicationOk(w.arrived, w.published[y]);
    var kept := Deduplicated(w.published);
    var k :| 0 <= k < |kept| && kept[k] == w.published[y];
    assert Carries(kept[k], w.published[x].of, w.arrived[w.published[x].of]);
  }

  lemma KeptCopy(ps: seq<Publication>, x: nat) returns (y: nat)
    requires x < |ps|
    ensures y < |ps| && IdOf(ps[y]) == IdOf(ps[x]) && ps[y] in Deduplicated(ps)
  {
    var kept := Deduplicated(ps);
    DeduplicatedKeepsOne(ps);
    var k :| 0 <= k < |Ids(kept)| && Ids(kept)[k] == IdOf(ps[x]);
    assert kept[k] in ps;
    y :| 0 <= y < |ps| && ps[y] == kept[k];
  }

  /* ---- the client ---- */

  datatype Page = Page(seqs: seq<nat>, next: Option<nat>, truncated: bool)

  datatype Collected = Collected(seqs: seq<nat>, truncated: bool, remaining: Option<nat>)

  datatype Failed = Failed(seqNo: nat, error: Error)

  datatype RetryResult = RetryResult(retried: nat, failed: seq<Failed>, truncated: bool, remaining: Option<nat>)

  function Given(faults: nat -> Faults, n: nat): seq<Faults> { seq(n, i requires 0 <= i < n => faults(i)) }

  function FailedOf(w: World, stream: string, seqs: seq<nat>, faults: seq<Faults>): seq<Failed>
    requires |faults| == |seqs|
  {
    if seqs == [] then []
    else
      var n := |seqs| - 1;
      FailedOf(w, stream, seqs[..n], faults[..n])
      + match RetryEffect(RetryAll(w, stream, seqs[..n], faults[..n]), Origin(stream, seqs[n]), faults[n]).1
        case Some(e) => [Failed(seqs[n], e)]
        case None => []
  }

  // Retry n of the list fails with this error.
  predicate FailsAt(w: World, stream: string, seqs: seq<nat>, faults: seq<Faults>, n: nat, x: Failed)
    requires |faults| == |seqs|
  {
    && n < |seqs| && x.seqNo == seqs[n]
    && RetryEffect(RetryAll(w, stream, seqs[..n], faults[..n]), Origin(stream, seqs[n]), faults[n]).1 == Some(x.error)
  }

  lemma FailsSnoc(w: World, stream: string, seqs: seq<nat>, faults: seq<Faults>, m: nat, n: nat, x: Failed)
    requires |faults| == |seqs| && n < m <= |seqs|
    ensures FailsAt(w, stream, seqs[..m], faults[..m], n, x) <==> FailsAt(w, stream, seqs, faults, n, x)
  {
    assert seqs[..m][..n] == seqs[..n] && faults[..m][..n] == faults[..n];
  }

  // The failures reported are those of the retries that failed, in the world each of them met.
  lemma {:induction false} FailuresExactly(w: World, stream: string, seqs: seq<nat>, faults: seq<Faults>, x: Failed)
    requires |faults| == |seqs|
    ensures x in FailedOf(w, stream, seqs, faults) <==> exists n: nat :: FailsAt(w, stream, seqs, faults, n, x)
  {
    if seqs != [] {
      var m := |seqs| - 1;
      FailuresExactly(w, stream, seqs[..m], faults[..m], x);
      forall n: nat | n < m
        ensures FailsAt(w, stream, seqs[..m], faults[..m], n, x) <==> FailsAt(w, stream, seqs, faults, n, x)
      {
        FailsSnoc(w, stream, seqs, faults, m, n, x);
      }
      assert x in FailedOf(w, stream, seqs, faults)
        <==> x in FailedOf(w, stream, seqs[..m], faults[..m]) || FailsAt(w, stream, seqs, faults, m, x);
    }
  }

  // One stream as the client sees it.  lastSeq is the last sequence ever assigned, so it may name a
  // message that has been deleted since.
  class DlqClient {
    const stream: string
    const metadata: map<string, string>
    var queue: map<nat, Stored>
    var lastSeq: nat
    var published: seq<Publication>

    constructor (stream: string, metadata: map<string, string>)
      ensures this.stream == stream && this.metadata == metadata && queue == map[] && lastSeq == 0 && published == []
    {
      this.stream, this.metadata := stream, metadata;
      queue, lastSeq, published := map[], 0, [];
    }

    ghost predicate Valid()
      reads this
    {
      forall k <- queue :: 1 <= k <= lastSeq
    }

    // The queue of this stream inside a world that may hold other streams too.
    ghost function View(): map<Origin, Stored>
      reads this
    {
      map o: Origin | o in (set k | k in queue :: Origin(stream, k)) :: queue[o.seqNo]
    }

    ghost function All(): seq<nat>
      reads this
    {
      Ascending(queue.Keys, 0, lastSeq)
    }

    // One page.  `claims` is the truncation flag of the range request, which some backends omit: the
    // page is the same whatever it says, and it is followed up whenever messages remain.
    method ListDlqMessages(startSeq: nat, limit: int, claims: bool) returns (page: Page)
      requires Valid()
      ensures page.seqs == First(NormalizeListLimit(limit), Ascending(queue.Keys, startSeq, lastSeq))
      ensures page.next.Some? ==> page.seqs != [] && page.next.value == page.seqs[|page.seqs| - 1] + 1 && page.truncated
      ensures page.seqs != [] && page.seqs[|page.seqs| - 1] < lastSeq && |page.seqs| == NormalizeListLimit(limit)
              ==> page.next.Some?
      ensures page.seqs != [] && page.seqs[|page.seqs| - 1] >= lastSeq ==> page.next.None?
    {
      var n := NormalizeListLimit(limit);
      AscendingFacts(queue.Keys, startSeq, lastSeq);
      AscendingFacts(queue.Keys, 0, lastSeq);
      if |queue| == 0 || lastSeq == 0 {
        AscendingNone(queue.Keys, startSeq, lastSeq);
        return Page([], None, false);
      }
      var start := startSeq;
      var first := FirstSeq();
      if start == 0 || start < first {
        start := first;
        AscendingSkip(queue.Keys, startSeq, start, lastSeq);
      }
      if start > lastSeq { return Page([], None, false); }
      var seqs := First(n, Ascending(queue.Keys, start, lastSeq));
      page := Page(seqs, None, claims);
      var last := if seqs == [] then 0 else seqs[|seqs| - 1];
      if 0 < last < lastSeq && (claims || |seqs| >= n) {
        page := Page(seqs, Some(last + 1), true);
      }
    }

    // State.FirstSeq of a stream that holds messages.
    method FirstSeq() returns (first: nat)
      requires Valid() && queue != map[]
      ensures first in queue && forall k <- queue :: first <= k
    {
      first := 1;
      while first !in queue
        invariant forall k <- queue :: first <= k
        decreases lastSeq - first
      {
        var k :| k in queue;
        first := first + 1;
      }
    }

    // One round of the paging loop: the collected prefix grows by a page, and paging goes on exactly
    // when the page came back full before the last assigned sequence or its flag says so.
    method CollectPage(seqs: seq<nat>, startSeq: nat, max: nat, claims: bool)
        returns (more: seq<nat>, next: Option<nat>)
      requires Valid() && |seqs| < max && seqs == First(|seqs|, All())
      requires |seqs| <= |All()| && Ascending(queue.Keys, startSeq, lastSeq) == All()[|seqs|..]
      ensures |more| <= max && |more| <= |All()| && more == All()[..|more|]
      ensures next.None? ==> more == All() && (|more| == max ==> more[max - 1] >= lastSeq)
      ensures next.Some? ==> |seqs| < |more| && more[|more| - 1] < lastSeq
      ensures next.Some? ==> Ascending(queue.Keys, next.value, lastSeq) == All()[|more|..]
    {
      var pageLimit := if max - |seqs| < MAX_LIST_LIMIT then max - |seqs| else MAX_LIST_LIMIT;
      var listed := ListDlqMessages(startSeq, pageLimit, claims);
      if listed.seqs == [] {
        return seqs, None;
      }
      PageFollows(queue.Keys, lastSeq, |seqs|, startSeq, pageLimit);
      more := seqs + listed.seqs;
      assert more[|more| - 1] == listed.seqs[|listed.seqs| - 1];
      next := listed.next;
      if listed.next.None? && more[|more| - 1] >= lastSeq {
        LastPage(queue.Keys, lastSeq, more);
      }
    }

    // On a fixed stream, retry-all collects in ascending order exactly the first safetyMax messages.
    // `fails` and `claims` say for each page request whether it fails and what its truncation flag is.
    // Truncation is reported exactly when the limit was reached before the last assigned sequence, and
    // `remaining` is then exactly the number of messages left out, which is 0 when only deleted
    // sequences follow.
    method CollectRetryAllSequences(safetyMax: int, fails: nat -> bool, claims: nat -> bool)
      returns (r: Result<Collected, Error>)
      requires Valid()
      ensures r.Failure? ==> exists i: nat :: fails(i)
      ensures r.Success? ==>
                var max := if safetyMax <= 0 then DEFAULT_RETRY_ALL_LIMIT else safetyMax;
                var c := r.value;
                && c.seqs == First(max, All())
                && (c.truncated <==> |c.seqs| == max && c.seqs[max - 1] < lastSeq)
                && (!c.truncated ==> c.seqs == All() && c.remaining.None?)
                && (c.truncated ==> c.remaining == Some(|queue| - |c.seqs|))
    {
      var max := if safetyMax <= 0 then DEFAULT_RETRY_ALL_LIMIT else safetyMax;
      var seqs, startSeq, calls: nat := [], 0, 0;
      ghost var all := All();
      CountAll();
      while |seqs| < max
        invariant |seqs| < max && |seqs| <= |all| && seqs == all[..|seqs|]
        invariant Ascending(queue.Keys, startSeq, lastSeq) == all[|seqs|..]
        decreases max - |seqs|
      {
        if fails(calls) { return Failure(CallFailed); }
        var next;
        seqs, next := CollectPage(seqs, startSeq, max, claims(calls));
        calls := calls + 1;
        if next.None? {
          return Success(Collected(seqs, false, None));
        }
        startSeq := next.value;
        if |seqs| >= max {
          return Success(Collected(seqs, true, Some(if |queue| > |seqs| then |queue| - |seqs| else 0)));
        }
      }
      assert false;
      r := Failure(CallFailed);
    }

    // This stream inside a world that remembers what arrived.
    ghost function State(arrived: map<Origin, Stored>): World
      reads this
    {
      World(View(), arrived, published)
    }

    method PublishRaw(original: string, m: Stored, seqNo: nat, ghost arrived: map<Origin, Stored>)
      requires original == OriginalSubject(m)
      modifies this`published
      ensures State(arrived) == Publish(old(State(arrived)), Origin(stream, seqNo), m)
    {
      var o := Origin(stream, seqNo);
      published := published + [Publication(original, m.data, RetryPublishHeaders(m.headers, o), o)];
    }

    method DeleteMessage(seqNo: nat, ghost arrived: map<Origin, Stored>)
      requires Valid()
      modifies this`queue
      ensures Valid() && State(arrived) == Delete(old(State(arrived)), Origin(stream, seqNo))
    {
      queue := queue - {seqNo};
      assert View() == old(View()) - {Origin(stream, seqNo)};
    }

    lemma ViewAt(seqNo: nat)
      ensures Origin(stream, seqNo) in View() <==> seqNo in queue
      ensures seqNo in queue ==> View()[Origin(stream, seqNo)] == queue[seqNo]
    {}

    method RetryOneMessage(seqNo: nat, f: Faults, ghost arrived: map<Origin, Stored>) returns (err: Option<Error>)
      requires Valid()
      modifies this`queue, this`published
      ensures Valid()
      ensures State(arrived) == RetryOne(old(State(arrived)), Origin(stream, seqNo), f)
      ensures err == RetryEffect(old(State(arrived)), Origin(stream, seqNo), f).1
    {
      ViewAt(seqNo);
      if f.get { return Some(CallFailed); }
      if seqNo !in queue { return Some(MessageNotFound); }
      var m := queue[seqNo];
      var original := OriginalSubject(m);
      if original == "" { return Some(MissingOriginalSubject); }
      if f.publish.NotApplied? { return Some(PublishFailed); }
      PublishRaw(original, m, seqNo, arrived);
      if f.publish.AppliedAnyway? { return Some(PublishFailed); }
      if f.delete.NotApplied? { return Some(RepublishedNotDeleted); }
      DeleteMessage(seqNo, arrived);
      return if f.delete.NoFault? then None else Some(RepublishedNotDeleted);
    }

    // A retry request is refused as a whole, touching nothing, when it is invalid or the stream is not a
    // dead-letter queue or a page cannot be listed; otherwise it runs over the requested sequences (or the
    // first NormalizedLimit messages) in order, and every sequence is counted as retried or reported.
    method RetryDlqMessages(req: Request, faults: nat -> Faults, fails: nat -> bool, claims: nat -> bool,
                            ghost arrived: map<Origin, Stored>)
      returns (r: Result<RetryResult, Error>)
      requires Valid()
      modifies this`queue, this`published
      ensures Valid()
      ensures r.Failure? ==> queue == old(queue) && published == old(published)
      ensures req.Validate().Some? ==> r == Failure(req.Validate().value)
      ensures req.Validate().None? && !IsDlqStream(stream, metadata) ==> r == Failure(NotDlqStream)
      ensures r.Failure? ==>
                || req.Validate().Some?
                || !IsDlqStream(stream, metadata)
                || (req.all && exists i: nat :: fails(i))
      ensures r.Success? ==>
                var seqs := if req.all then First(req.NormalizedLimit(), old(All())) else req.seqs;
                && State(arrived) == RetryAll(old(State(arrived)), stream, seqs, Given(faults, |seqs|))
                && r.value.failed == FailedOf(old(State(arrived)), stream, seqs, Given(faults, |seqs|))
                && r.value.retried + |r.value.failed| == |seqs|
                && (r.value.truncated <==> req.all && |seqs| == req.NormalizedLimit() && seqs[|seqs| - 1] < lastSeq)
                && r.value.remaining == if r.value.truncated then Some(|old(queue)| - |seqs|) else None
    {
      if req.Validate().Some? { return Failure(req.Validate().value); }
      if !IsDlqStream(stream, metadata) { return Failure(NotDlqStream); }
      var seqs, truncated, remaining := req.seqs, false, None;
      if req.all {
        var collected := CollectRetryAllSequences(req.NormalizedLimit(), fails, claims);
        if collected.Failure? { return Failure(collected.error); }
        seqs, truncated, remaining := collected.value.seqs, collected.value.truncated, collected.value.remaining;
      }
      var retried, failed := RetrySequences(seqs, faults, arrived);
      r := Success(RetryResult(retried, failed, truncated, remaining));
    }

    method RetrySequences(seqs: seq<nat>, faults: nat -> Faults, ghost arrived: map<Origin, Stored>)
      returns (retried: nat, failed: seq<Failed>)
      requires Valid()
      modifies this`queue, this`published
      ensures Valid()
      ensures State(arrived) == RetryAll(old(State(arrived)), stream, seqs, Given(faults, |seqs|))
      ensures failed == FailedOf(old(State(arrived)), stream, seqs, Given(faults, |seqs|))
      ensures retried + |failed| == |seqs|
    {
      retried, failed := 0, [];
      ghost var w := State(arrived);
      for i := 0 to |seqs|
        invariant Valid()
        invariant State(arrived) == RetryAll(w, stream, seqs[..i], Given(faults, i))
        invariant failed == FailedOf(w, stream, seqs[..i], Given(faults, i))
        invariant retried + |failed| == i
      {
        assert seqs[..i + 1][..i] == seqs[..i] && Given(faults, i + 1)[..i] == Given(faults, i);
        var err := RetryOneMessage(seqs[i], faults(i), arrived);
        if err.Some? {
          failed := failed + [Failed(seqs[i], err.value)];
        } else {
          retried := retried + 1;
        }
      }
      assert seqs[..|seqs|] == seqs;
    }

    lemma CountAll()
      requires Valid()
      ensures |All()| == |queue|
    {
      AscendingCount(queue.Keys, 0, lastSeq);
    }
  }

  // A retry of all messages can be cut short with nothing left to retry: the limit of one is reached before
  // the last sequence that was assigned, whose message has been deleted.
  method TruncatedWithNothingRemaining() returns (r: RetryResult)
    ensures r.truncated && r.remaining == Some(0)
  {
    var client := new DlqClient("orders_DLQ", map[]);
    client.queue := map[1 := Stored(map[], [])];
    client.lastSeq := 2;
    assert Ascending({1}, 0, 2) == [1];
    assert HasSuffix("orders" + "_DLQ", "_DLQ");
    var result := client.RetryDlqMessages(Request([], 1, true), _ => Faults(false, NoFault, NoFault), _ => false,
                                          _ => false, map[]);
    assert result.Success?;
    r := result.value;
  }

  // A page taken where the first n elements end extends them to the first n + k.
  lemma PageFollows(keys: set<nat>, hi: nat, n: nat, from: nat, limit: nat)
    requires n <= |Ascending(keys, 0, hi)| && Ascending(keys, from, hi) == Ascending(keys, 0, hi)[n..]
    requires 0 < limit && Ascending(keys, from, hi) != []
    ensures var all := Ascending(keys, 0, hi);
            var page := First(limit, Ascending(keys, from, hi));
            && n + |page| <= |all|
            && all[..n] + page == all[..n + |page|]
            && Ascending(keys, page[|page| - 1] + 1, hi) == all[n + |page|..]
            && (|page| < limit ==> n + |page| == |all|)
  {
    var all := Ascending(keys, 0, hi);
    var page := First(limit, Ascending(keys, from, hi));
    AscendingAfter(keys, from, hi, |page|);
    assert all[n..][|page|..] == all[n + |page|..];
    assert page == all[n..][..|page|];
  }

  // Nothing follows an element that has reached the end of the range.
  lemma LastPage(keys: set<nat>, hi: nat, seqs: seq<nat>)
    requires seqs != [] && seqs <= Ascending(keys, 0, hi) && seqs[|seqs| - 1] >= hi
    ensures seqs == Ascending(keys, 0, hi)
  {
    AscendingFacts(keys, 0, hi);
    var all := Ascending(keys, 0, hi);
    assert all[|all| - 1] in all;
  }
}
