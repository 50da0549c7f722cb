/**
 Hourly rollups: scrape observations are merged into one row per consumer and hour by an upsert. Columns
 are real numbers here, so rounding plays no part.
 */
module BottleneckRollup {
  import opened Wrappers

  const HOUR := 3_600_000_000_000

  datatype Key = Key(cluster: string, stream: string, consumer: string, hour: int)

  datatype Bucket = Bucket(cluster: string, stream: string, consumer: string, at: int,
                           avgLag: real, maxLag: real, payload: real, processing: Option<real>, samples: int)

  datatype Rollup = Rollup(avgLag: real, maxLag: real, payload: real, processing: Option<real>, samples: int)

  // An instant is truncated to its hour.
  function KeyOf(b: Bucket): Key { Key(b.cluster, b.stream, b.consumer, b.at / HOUR * HOUR) }

  function Excluded(b: Bucket): (r: Rollup)
    ensures r.samples >= 1
  {
    Rollup(b.avgLag, b.maxLag, b.payload, b.processing, if b.samples <= 0 then 1 else b.samples)
  }

  function Mean(x: real, m: int, y: real, n: int): real
    requires m + n != 0
  {
    (x * m as real + y * n as real) / (m + n) as real
  }

  function Greatest(x: real, y: real): real { if x >= y then x else y }

  // ON CONFLICT DO UPDATE, column by column.
  function Merge(old_: Rollup, new_: Rollup): Rollup {
    var n := old_.samples + new_.samples;
    Rollup(
      if n == 0 then 0.0 else Mean(old_.avgLag, old_.samples, new_.avgLag, new_.samples),
      Greatest(old_.maxLag, new_.maxLag),
      if new_.payload <= 0.0 then old_.payload
      else if old_.payload <= 0.0 then new_.payload
      else if n == 0 then 0.0
      else Mean(old_.payload, old_.samples, new_.payload, new_.samples),
      if new_.processing.None? then old_.processing
      else if old_.processing.None? then new_.processing
      else if n == 0 then new_.processing
      else Some(Mean(old_.processing.value, old_.samples, new_.processing.value, new_.samples)),
      n)
  }

  function Upsert(table: map<Key, Rollup>, b: Bucket): map<Key, Rollup> {
    table[KeyOf(b) := if KeyOf(b) in table then Merge(table[KeyOf(b)], Excluded(b)) else Excluded(b)]
  }

  function UpsertAll(table: map<Key, Rollup>, bs: seq<Bucket>): map<Key, Rollup>
    decreases |bs|
  {
    if bs == [] then table else Upsert(UpsertAll(table, bs[..|bs| - 1]), bs[|bs| - 1])
  }

  predicate DistinctKeys(bs: seq<Bucket>) { forall i, j | 0 <= i < j < |bs| :: KeyOf(bs[i]) != KeyOf(bs[j]) }

  class RollupTable {
    var rows: map<Key, Rollup>

    constructor ()
      ensures rows == map[]
    {
      rows := map[];
    }

    // One statement for the whole batch. The database refuses a statement that would update a row twice.
    method UpsertBottleneckHourBuckets(batch: seq<Bucket>) returns (ok: bool)
      modifies this
      ensures ok == DistinctKeys(batch)
      ensures rows == if ok then UpsertAll(old(rows), batch) else old(rows)
    {
      if |batch| == 0 { return true; }
      var args: seq<(Key, Rollup)> := [];
      var keys: set<Key> := {};
      ok := true;
      for i := 0 to |batch|
        invariant |args| == i && forall k | 0 <= k < i :: args[k] == (KeyOf(batch[k]), Excluded(batch[k]))
        invariant keys == set k | 0 <= k < i :: KeyOf(batch[k])
        invariant ok == DistinctKeys(batch[..i]) && rows == old(rows)
      {
        var samples := batch[i].samples;
        if samples <= 0 { samples := 1; }
        var key := KeyOf(batch[i]);
        DistinctSnoc(batch, i);
        ok := ok && key !in keys;
        keys := keys + {key};
        args := args + [(key, Rollup(batch[i].avgLag, batch[i].maxLag, batch[i].payload, batch[i].processing,
                                     samples))];
      }
      assert batch[..|batch|] == batch;
      if !ok { return; }
      for i := 0 to |args|
        invariant rows == UpsertAll(old(rows), batch[..i])
      {
        assert batch[..i + 1][..i] == batch[..i];
        var (key, row) := args[i];
        rows := rows[key := if key in rows then Merge(rows[key], row) else row];
      }
    }
  }

  lemma DistinctSnoc(bs: seq<Bucket>, i: nat)
    requires i < |bs|
    ensures DistinctKeys(bs[..i + 1])
       <==> DistinctKeys(bs[..i]) && KeyOf(bs[i]) !in (set k | 0 <= k < i :: KeyOf(bs[k]))
  {
    var a, b := bs[..i], bs[..i + 1];
    assert b == a + [bs[i]];
    if DistinctKeys(b) {
      forall j, k | 0 <= j < k < i ensures KeyOf(a[j]) != KeyOf(a[k]) { assert b[j] == a[j] && b[k] == a[k]; }
      forall k | 0 <= k < i ensures KeyOf(bs[k]) != KeyOf(bs[i]) { assert b[k] == bs[k] && b[i] == bs[i]; }
    }
  }

  // An observation goes to the row of its consumer and of the hour it was made in, and counts for at least one
  // sample.
  lemma ObservationExactly(b: Bucket)
    ensures var (k, r) := (KeyOf(b), Excluded(b));
            && k.cluster == b.cluster && k.stream == b.stream && k.consumer == b.consumer
            && k.hour % 3_600_000_000_000 == 0 && k.hour <= b.at < k.hour + 3_600_000_000_000
            && r.samples == (if b.samples >= 1 then b.samples else 1) && r.avgLag == b.avgLag && r.maxLag == b.maxLag
            && r.payload == b.payload && r.processing == b.processing
  {}

  /* ---- the history of one row ---- */

  function OfKey(bs: seq<Bucket>, k: Key): seq<Bucket> {
    if bs == [] then [] else OfKey(bs[..|bs| - 1], k) + if KeyOf(bs[|bs| - 1]) == k then [bs[|bs| - 1]] else []
  }

  function Merged(bs: seq<Bucket>): Rollup
    requires bs != []
    decreases |bs|
  {
    if |bs| == 1 then Excluded(bs[0]) else Merge(Merged(bs[..|bs| - 1]), Excluded(bs[|bs| - 1]))
  }

  lemma MergedSnoc(bs: seq<Bucket>, b: Bucket)
    ensures Merged(bs + [b]) == if bs == [] then Excluded(b) else Merge(Merged(bs), Excluded(b))
  {
    assert (bs + [b])[..|bs|] == bs;
  }

  predicate Tracks(table: map<Key, Rollup>, own: seq<Bucket>, k: Key) {
    (k in table <==> own != []) && (k in table ==> table[k] == Merged(own))
  }

  lemma UpsertTracks(table: map<Key, Rollup>, own: seq<Bucket>, b: Bucket, k: Key)
    requires Tracks(table, own, k)
    ensures Tracks(Upsert(table, b), own + if KeyOf(b) == k then [b] else [], k)
  {
    if KeyOf(b) == k { MergedSnoc(own, b); } else { assert own + [] == own; }
  }

  // A row depends on the observations for its own key only, in their order.
  lemma {:induction false} RowHistory(bs: seq<Bucket>, k: Key)
    ensures Tracks(UpsertAll(map[], bs), OfKey(bs, k), k)
  {
    if bs != [] {
      RowHistory(bs[..|bs| - 1], k);
      UpsertTracks(UpsertAll(map[], bs[..|bs| - 1]), OfKey(bs[..|bs| - 1], k), bs[|bs| - 1], k);
    }
  }

  function Total(bs: seq<Bucket>, f: Bucket -> int): int {
    if bs == [] then 0 else Total(bs[..|bs| - 1], f) + f(bs[|bs| - 1])
  }

  function Sum(bs: seq<Bucket>, f: Bucket -> real): real {
    if bs == [] then 0.0 else Sum(bs[..|bs| - 1], f) + f(bs[|bs| - 1])
  }

  function Count(b: Bucket): int { Excluded(b).samples }

  function Weight(b: Bucket): real { b.avgLag * Excluded(b).samples as real }

  function Samples(bs: seq<Bucket>): int { Total(bs, Count) }

  function WeightedLag(bs: seq<Bucket>): real { Sum(bs, Weight) }

  lemma MeanTimesTotal(x: real, m: int, y: real, n: int)
    requires m + n != 0
    ensures Mean(x, m, y, n) * (m + n) as real == x * m as real + y * n as real
  {
    var s := x * m as real + y * n as real;
    var t := (m + n) as real;
    assert s / t * t == s;
  }

  lemma LastCounted(bs: seq<Bucket>)
    requires bs != []
    ensures Samples(bs) == Samples(bs[..|bs| - 1]) + Excluded(bs[|bs| - 1]).samples
    ensures WeightedLag(bs) == WeightedLag(bs[..|bs| - 1]) + Weight(bs[|bs| - 1])
    ensures |bs| == 1 ==> Samples(bs[..|bs| - 1]) == 0 && WeightedLag(bs[..|bs| - 1]) == 0.0
  {
    assert Count(bs[|bs| - 1]) == Excluded(bs[|bs| - 1]).samples;
  }

  lemma {:induction false} MergedSamples(bs: seq<Bucket>)
    requires bs != []
    ensures Merged(bs).samples == Samples(bs) >= |bs|
  {
    LastCounted(bs);
    var n := |bs| - 1;
    if n > 0 {
      MergedSamples(bs[..n]);
    }
  }

  // n samples, and an average lag that is exactly the weight w shared among them.
  predicate ExactLag(r: Rollup, n: int, w: real) { r.samples == n >= 1 && r.avgLag * n as real == w }

  lemma MergeAddsWeight(m: Rollup, n: int, w: real, b: Bucket)
    requires ExactLag(m, n, w)
    ensures ExactLag(Merge(m, Excluded(b)), n + Count(b), w + Weight(b))
  {
    MeanTimesTotal(m.avgLag, n, b.avgLag, Count(b));
  }

  // Induction over the observations of a row, for a property that merging one more maintains.
  lemma {:induction false} MergedSatisfies(bs: seq<Bucket>, p: (Rollup, int, real) -> bool)
    requires bs != []
    requires forall b :: p(Excluded(b), Count(b), Weight(b))
    requires forall r, n, w, b | p(r, n, w) :: p(Merge(r, Excluded(b)), n + Count(b), w + Weight(b))
    ensures p(Merged(bs), Samples(bs), WeightedLag(bs))
  {
    LastCounted(bs);
    var n := |bs| - 1;
    if n > 0 {
      MergedSatisfies(bs[..n], p);
      assert p(Merge(Merged(bs[..n]), Excluded(bs[n])), Samples(bs[..n]) + Count(bs[n]),
               WeightedLag(bs[..n]) + Weight(bs[n]));
    }
  }

  // The sample count is the total, the average lag the exact weighted mean.
  lemma MergedLag(bs: seq<Bucket>)
    requires bs != []
    ensures ExactLag(Merged(bs), Samples(bs), WeightedLag(bs))
  {
    forall r, n, w, b | ExactLag(r, n, w) ensures ExactLag(Merge(r, Excluded(b)), n + Count(b), w + Weight(b)) {
      MergeAddsWeight(r, n, w, b);
    }
    MergedSatisfies(bs, ExactLag);
  }

  // The maximum lag is one of the maxima observed, and none is greater.
  lemma {:induction false} MergedMax(bs: seq<Bucket>)
    requires bs != []
    ensures (forall b | b in bs :: b.maxLag <= Merged(bs).maxLag)
            && exists b :: b in bs && b.maxLag == Merged(bs).maxLag
  {
    var n := |bs| - 1;
    if n == 0 {
      assert bs[0] in bs;
    } else {
      MergedMax(bs[..n]);
      assert bs == bs[..n] + [bs[n]];
      var b :| b in bs[..n] && b.maxLag == Merged(bs[..n]).maxLag;
      assert b in bs && bs[n] in bs;
    }
  }

  lemma MeanBetween(lo: real, x: real, m: int, y: real, n: int, hi: real)
    requires lo <= x <= hi && lo <= y <= hi && m >= 1 && n >= 1
    ensures lo <= Mean(x, m, y, n) <= hi
  {
    var t, p, q := (m + n) as real, m as real, n as real;
    MeanTimesTotal(x, m, y, n);
    var v := Mean(x, m, y, n);
    assert lo * p <= x * p <= hi * p && lo * q <= y * q <= hi * q;
    assert lo * t == lo * p + lo * q && hi * t == hi * p + hi * q;
    assert lo * t <= v * t <= hi * t;
    Cancel(lo, v, t);
    Cancel(v, hi, t);
  }

  lemma Cancel(a: real, b: real, t: real)
    requires t > 0.0 && a * t <= b * t
    ensures a <= b
  {
    assert a > b ==> (a - b) * t > 0.0;
  }

  // Some positive payload between lo and hi was seen, and none outside.
  predicate PayloadsWithin(bs: seq<Bucket>, lo: real, hi: real) {
    0.0 < lo && forall i | 0 <= i < |bs| :: bs[i].payload > 0.0 ==> lo <= bs[i].payload <= hi
  }

  predicate AnyPayload(bs: seq<Bucket>) { exists i | 0 <= i < |bs| :: bs[i].payload > 0.0 }

  // The payload average is positive exactly if some payload was, and then it lies between the least and
  // the greatest of them.
  lemma {:induction false} MergedPayload(bs: seq<Bucket>, lo: real, hi: real)
    requires bs != [] && PayloadsWithin(bs, lo, hi)
    ensures if AnyPayload(bs) then lo <= Merged(bs).payload <= hi else Merged(bs).payload <= 0.0
  {
    var n := |bs| - 1;
    if n > 0 {
      var m, e := Merged(bs[..n]), Excluded(bs[n]);
      MergedPayload(bs[..n], lo, hi);
      MergedSamples(bs[..n]);
      assert AnyPayload(bs) <==> AnyPayload(bs[..n]) || bs[n].payload > 0.0 by {
        if AnyPayload(bs[..n]) { var i :| 0 <= i < n && bs[..n][i].payload > 0.0; assert bs[i].payload > 0.0; }
        if AnyPayload(bs) && bs[n].payload <= 0.0 {
          var i :| 0 <= i <= n && bs[i].payload > 0.0;
          assert bs[..n][i].payload > 0.0;
        }
      }
      if AnyPayload(bs[..n]) && e.payload > 0.0 { MeanBetween(lo, m.payload, m.samples, e.payload, e.samples, hi); }
    }
  }

  predicate TimesWithin(bs: seq<Bucket>, lo: real, hi: real) {
    forall i | 0 <= i < |bs| :: bs[i].processing.Some? ==> lo <= bs[i].processing.value <= hi
  }

  predicate AnyTime(bs: seq<Bucket>) { exists i | 0 <= i < |bs| :: bs[i].processing.Some? }

  // The processing time is unknown exactly if it always was, and otherwise between the extremes seen.
  lemma {:induction false} MergedTime(bs: seq<Bucket>, lo: real, hi: real)
    requires bs != [] && TimesWithin(bs, lo, hi)
    ensures Merged(bs).processing.Some? <==> AnyTime(bs)
    ensures AnyTime(bs) ==> lo <= Merged(bs).processing.value <= hi
  {
    var n := |bs| - 1;
    if n > 0 {
      var m, e := Merged(bs[..n]), Excluded(bs[n]);
      MergedTime(bs[..n], lo, hi);
      MergedSamples(bs[..n]);
      assert AnyTime(bs) <==> AnyTime(bs[..n]) || bs[n].processing.Some? by {
        if AnyTime(bs[..n]) { var i :| 0 <= i < n && bs[..n][i].processing.Some?; assert bs[i].processing.Some?; }
        if AnyTime(bs) && bs[n].processing.None? {
          var i :| 0 <= i <= n && bs[i].processing.Some?;
          assert bs[..n][i].processing.Some?;
        }
      }
      if m.processing.Some? && e.processing.Some? {
        MeanBetween(lo, m.processing.value, m.samples, e.processing.value, e.samples, hi);
      }
    }
  }

  /* ---- order does not matter ---- */

  lemma {:induction false} SumsWithout(bs: seq<Bucket>, i: nat, f: Bucket -> int, g: Bucket -> real)
    requires i < |bs|
    ensures Total(bs, f) == Total(bs[..i] + bs[i + 1..], f) + f(bs[i])
    ensures Sum(bs, g) == Sum(bs[..i] + bs[i + 1..], g) + g(bs[i])
    decreases |bs|
  {
    var n := |bs| - 1;
    var rest := bs[..i] + bs[i + 1..];
    if i == n {
      assert rest == bs[..n];
    } else {
      SumsWithout(bs[..n], i, f, g);
      assert rest[..|rest| - 1] == bs[..n][..i] + bs[..n][i + 1..];
      assert rest[|rest| - 1] == bs[n];
    }
  }

  lemma BagWithout(bs: seq<Bucket>, i: nat)
    requires i < |bs|
    ensures multiset(bs[..i] + bs[i + 1..]) == multiset(bs) - multiset{bs[i]}
  {
    assert bs == bs[..i] + [bs[i]] + bs[i + 1..];
  }

  lemma {:induction false} SumsOfSameBag(a: seq<Bucket>, b: seq<Bucket>, f: Bucket -> int, g: Bucket -> real)
    requires multiset(a) == multiset(b)
    ensures Total(a, f) == Total(b, f) && Sum(a, g) == Sum(b, g)
    decreases |a|
  {
    SameBagSameSize(a, b);
    if a != [] {
      var n := |a| - 1;
      assert a[n] in multiset(b);
      var i :| 0 <= i < |b| && b[i] == a[n];
      BagWithout(a, n);
      BagWithout(b, i);
      assert a[..n] + a[n + 1..] == a[..n];
      SumsOfSameBag(a[..n], b[..i] + b[i + 1..], f, g);
      SumsWithout(b, i, f, g);
    }
  }

  lemma SameBagSameSize(a: seq<Bucket>, b: seq<Bucket>)
    requires multiset(a) == multiset(b)
    ensures |a| == |b|
  {
    assert |multiset(a)| == |multiset(b)|;
  }

  lemma {:induction false} OfKeyBag(bs: seq<Bucket>, k: Key, b: Bucket)
    ensures multiset(OfKey(bs, k))[b] == if KeyOf(b) == k then multiset(bs)[b] else 0
  {
    if bs != [] {
      var n := |bs| - 1;
      OfKeyBag(bs[..n], k, b);
      assert bs == bs[..n] + [bs[n]];
    }
  }

  // Any order of the same observations, batched in any way, gives every row the same sample count, the
  // same maximum and the same average lag.
  lemma OrderDoesNotMatter(a: seq<Bucket>, b: seq<Bucket>, k: Key)
    requires multiset(a) == multiset(b)
    ensures var (s, t) := (UpsertAll(map[], a), UpsertAll(map[], b));
            (k in s <==> k in t)
            && (k in s ==> s[k].samples == t[k].samples && s[k].maxLag == t[k].maxLag && s[k].avgLag == t[k].avgLag)
  {
    var x, y := OfKey(a, k), OfKey(b, k);
    RowHistory(a, k);
    RowHistory(b, k);
    forall e ensures multiset(x)[e] == multiset(y)[e] {
      OfKeyBag(a, k, e);
      OfKeyBag(b, k, e);
    }
    assert multiset(x) == multiset(y);
    SameBagSameSize(x, y);
    if x != [] { SameBagSameRow(x, y); }
  }

  lemma SameBagSameMax(x: seq<Bucket>, y: seq<Bucket>)
    requires x != [] && y != [] && multiset(x) == multiset(y)
    ensures Merged(x).maxLag == Merged(y).maxLag
  {
    MergedMax(x);
    MergedMax(y);
    forall e ensures e in x <==> e in y { assert e in x <==> e in multiset(x); assert e in y <==> e in multiset(y); }
  }

  lemma SameLag(r: Rollup, t: Rollup, n: int, w: real)
    requires ExactLag(r, n, w) && ExactLag(t, n, w)
    ensures r.avgLag == t.avgLag && r.samples == t.samples
  {
    Cancel(r.avgLag, t.avgLag, n as real);
    Cancel(t.avgLag, r.avgLag, n as real);
  }

  lemma SameBagSameRow(x: seq<Bucket>, y: seq<Bucket>)
    requires x != [] && y != [] && multiset(x) == multiset(y)
    ensures Merged(x).samples == Merged(y).samples && Merged(x).maxLag == Merged(y).maxLag
            && Merged(x).avgLag == Merged(y).avgLag
  {
    SumsOfSameBag(x, y, Count, Weight);
    SameBagSameMax(x, y);
    MergedLag(x);
    MergedLag(y);
    SameLag(Merged(x), Merged(y), Samples(x), WeightedLag(x));
  }

  // Batches add up: two batches in a row are one longer sequence of observations.
  lemma {:induction false} BatchesConcat(table: map<Key, Rollup>, a: seq<Bucket>, b: seq<Bucket>)
    ensures UpsertAll(UpsertAll(table, a), b) == UpsertAll(table, a + b)
    decreases |b|
  {
    if b == [] {
      assert a + b == a;
    } else {
      var n := |b| - 1;
      assert (a + b)[..|a + b| - 1] == a + b[..n];
      BatchesConcat(table, a, b[..n]);
    }
  }

  // The payload average is not that robust: an observation without a payload still adds to the weight of
  // the average before it, and not of one after it.
  lemma PayloadDependsOnOrder(k: Bucket)
    ensures exists a: seq<Bucket>, b: seq<Bucket> ::
              a != [] && b != [] && multiset(a) == multiset(b) && Merged(a).payload != Merged(b).payload
  {
    var none := k.(payload := 0.0, samples := 1);
    var small := k.(payload := 10.0, samples := 1);
    var large := k.(payload := 40.0, samples := 1);
    var a, b := [small, none, large], [small, large, none];
    assert multiset(a) == multiset(b);
    assert a[..2] == [small, none] && b[..2] == [small, large] && a[..2][..1] == [small] && b[..2][..1] == [small];
    assert Merged([small]).payload == 10.0;
    assert Merged(a[..2]).payload == 10.0 && Merged(a[..2]).samples == 2;
    assert Merged(a).payload == Mean(10.0, 2, 40.0, 1) == 20.0;
    assert Merged(b[..2]).payload == Mean(10.0, 1, 40.0, 1) == 25.0;
    assert Merged(b).payload == 25.0;
  }
}
