/** Which columns of a rollup depend on the order of the upserts, and on which observations they do. */
module RollupOrder {
  import opened Wrappers
  import opened BottleneckRollup

  // The average payload and the average processing time follow one pattern: an observation may lack a
  // value, and then it changes the sample count of the row but not the average.
  type Column = Bucket -> Option<real>

  function MergeValue(x: Option<real>, m: int, y: Option<real>, n: int): Option<real> {
    if y.None? then x else if x.None? || m + n == 0 then y else Some(Mean(x.value, m, y.value, n))
  }

  function Average(bs: seq<Bucket>, col: Column): Option<real>
    requires bs != []
    decreases |bs|
  {
    var n := |bs| - 1;
    if n == 0 then col(bs[0]) else MergeValue(Average(bs[..n], col), Samples(bs[..n]), col(bs[n]), Count(bs[n]))
  }

  predicate AllKnown(bs: seq<Bucket>, col: Column) { forall i | 0 <= i < |bs| :: col(bs[i]).Some? }

  predicate KnownAgree(bs: seq<Bucket>, col: Column) {
    forall i, j | 0 <= i < |bs| && 0 <= j < |bs| && col(bs[i]).Some? && col(bs[j]).Some? :: col(bs[i]) == col(bs[j])
  }

  // The same observations in some order.
  ghost predicate Shuffle(a: seq<Bucket>, bs: seq<Bucket>) { a != [] && multiset(a) == multiset(bs) }

  ghost predicate AnyOrderAverages(bs: seq<Bucket>, col: Column)
    requires bs != []
  {
    forall a | Shuffle(a, bs) :: Average(a, col) == Average(bs, col)
  }

  lemma AverageSnoc(bs: seq<Bucket>, b: Bucket, col: Column)
    requires bs != []
    ensures Average(bs + [b], col) == MergeValue(Average(bs, col), Samples(bs), col(b), Count(b))
    ensures Samples(bs + [b]) == Samples(bs) + Count(b)
  {
    assert (bs + [b])[..|bs|] == bs;
    LastCounted(bs + [b]);
  }

  lemma SameMembers(a: seq<Bucket>, bs: seq<Bucket>)
    requires multiset(a) == multiset(bs)
    ensures forall b :: b in a <==> b in bs
  {
    forall b ensures b in a <==> b in bs {
      assert b in a <==> b in multiset(a);
      assert b in bs <==> b in multiset(bs);
    }
  }

  /* ---- when all values are known, the average is the weighted mean ---- */

  function Weighed(col: Column): Bucket -> real {
    b => (if col(b).Some? then col(b).value else 0.0) * Count(b) as real
  }

  predicate ExactValue(v: Option<real>, n: int, w: real) { v.Some? && n >= 1 && v.value * n as real == w }

  lemma MergeKeepsExact(x: Option<real>, m: int, w: real, y: real, n: int)
    requires ExactValue(x, m, w) && n >= 1
    ensures ExactValue(MergeValue(x, m, Some(y), n), m + n, w + y * n as real)
  {
    MeanTimesTotal(x.value, m, y, n);
  }

  lemma {:induction false} AverageSatisfies(bs: seq<Bucket>, col: Column, g: Bucket -> real,
                                            p: (Option<real>, int, real) -> bool)
    requires bs != [] && AllKnown(bs, col)
    requires forall b | col(b).Some? :: p(col(b), Count(b), g(b))
    requires forall v, n, w, b | p(v, n, w) && col(b).Some? ::
             p(MergeValue(v, n, col(b), Count(b)), n + Count(b), w + g(b))
    ensures p(Average(bs, col), Samples(bs), Sum(bs, g))
    decreases |bs|
  {
    LastCounted(bs);
    var n := |bs| - 1;
    assert col(bs[n]).Some?;
    if n == 0 {
      assert bs[..0] == [];
    } else {
      AverageSatisfies(bs[..n], col, g, p);
    }
  }

  lemma KnownMean(bs: seq<Bucket>, col: Column)
    requires bs != [] && AllKnown(bs, col)
    ensures ExactValue(Average(bs, col), Samples(bs), Sum(bs, Weighed(col)))
  {
    forall v, n, w, b | ExactValue(v, n, w) && col(b).Some?
      ensures ExactValue(MergeValue(v, n, col(b), Count(b)), n + Count(b), w + Weighed(col)(b))
    {
      MergeKeepsExact(v, n, w, col(b).value, Count(b));
    }
    AverageSatisfies(bs, col, Weighed(col), ExactValue);
  }

  lemma SameExact(x: Option<real>, y: Option<real>, n: int, w: real)
    requires ExactValue(x, n, w) && ExactValue(y, n, w)
    ensures x == y
  {
    Cancel(x.value, y.value, n as real);
    Cancel(y.value, x.value, n as real);
  }

  lemma KnownAveragesAnyOrder(bs: seq<Bucket>, col: Column)
    requires bs != [] && AllKnown(bs, col)
    ensures AnyOrderAverages(bs, col)
  {
    forall a: seq<Bucket> | Shuffle(a, bs) ensures Average(a, col) == Average(bs, col) {
      SameMembers(a, bs);
      forall i | 0 <= i < |a| ensures col(a[i]).Some? { assert a[i] in bs; }
      KnownMean(a, col);
      KnownMean(bs, col);
      SumsOfSameBag(a, bs, Count, Weighed(col));
      SameExact(Average(a, col), Average(bs, col), Samples(bs), Sum(bs, Weighed(col)));
    }
  }

  /* ---- when the known values agree, the average is that value ---- */

  predicate IsOrUnknown(bs: seq<Bucket>, col: Column, v: real) {
    forall i | 0 <= i < |bs| :: col(bs[i]) in [None, Some(v)]
  }

  predicate AnyKnown(bs: seq<Bucket>, col: Column) { exists i | 0 <= i < |bs| :: col(bs[i]).Some? }

  lemma MergeOfSame(v: real, m: int, n: int)
    requires m >= 1 && n >= 1
    ensures MergeValue(Some(v), m, Some(v), n) == Some(v)
  {
    MeanBetween(v, v, m, v, n, v);
  }

  lemma {:induction false} AgreedAverage(bs: seq<Bucket>, col: Column, v: real)
    requires bs != [] && IsOrUnknown(bs, col, v)
    ensures Average(bs, col) == if AnyKnown(bs, col) then Some(v) else None
    decreases |bs|
  {
    var n := |bs| - 1;
    assert col(bs[n]) in [None, Some(v)];
    if n > 0 {
      AgreedAverage(bs[..n], col, v);
      MergedSamples(bs[..n]);
      MergeOfSame(v, Samples(bs[..n]), Count(bs[n]));
      if AnyKnown(bs[..n], col) { var i :| 0 <= i < n && col(bs[..n][i]).Some?; assert col(bs[i]).Some?; }
      if AnyKnown(bs, col) && col(bs[n]).None? {
        var i :| 0 <= i <= n && col(bs[i]).Some?;
        assert col(bs[..n][i]).Some?;
      }
    }
  }

  lemma AgreedAveragesAnyOrder(bs: seq<Bucket>, col: Column)
    requires bs != [] && KnownAgree(bs, col)
    ensures AnyOrderAverages(bs, col)
  {
    var v := if AnyKnown(bs, col) then (var i :| 0 <= i < |bs| && col(bs[i]).Some?; col(bs[i]).value) else 0.0;
    forall a: seq<Bucket> | Shuffle(a, bs) ensures Average(a, col) == Average(bs, col) {
      SameMembers(a, bs);
      forall i | 0 <= i < |a| ensures col(a[i]) in [None, Some(v)] { assert a[i] in bs; }
      if AnyKnown(a, col) { var i :| 0 <= i < |a| && col(a[i]).Some?; assert a[i] in bs; }
      if AnyKnown(bs, col) { var i :| 0 <= i < |bs| && col(bs[i]).Some?; assert bs[i] in a; }
      AgreedAverage(a, col, v);
      AgreedAverage(bs, col, v);
    }
  }

  /* ---- otherwise two orders differ ---- */

  // If an observation without a value weighs the same between two values as behind both, they are equal.
  lemma GapAgrees(x: real, p: int, z: int, y: real, q: int)
    requires p >= 1 && z >= 1 && q >= 1 && Mean(x, p + z, y, q) == Mean(x, p, y, q)
    ensures x == y
  {
    var a, s, r, t := Mean(x, p, y, q), p as real, z as real, q as real;
    MeanTimesTotal(x, p + z, y, q);
    MeanTimesTotal(x, p, y, q);
    assert a * (s + r + t) == x * (s + r) + y * t && a * (s + t) == x * s + y * t;
    assert a * r == x * r;
    Cancel(a, x, r);
    Cancel(x, a, r);
    assert x * t == y * t;
    Cancel(x, y, t);
    Cancel(y, x, t);
  }

  lemma MeanDetermines(x: real, y: real, m: int, v: real, n: int)
    requires m >= 1 && n >= 1 && Mean(x, m, v, n) == Mean(y, m, v, n)
    ensures x == y
  {
    MeanTimesTotal(x, m, v, n);
    MeanTimesTotal(y, m, v, n);
    Cancel(x, y, m as real);
    Cancel(y, x, m as real);
  }

  predicate Apart(a: seq<Bucket>, b: seq<Bucket>, col: Column) {
    && a != [] && b != [] && Samples(a) == Samples(b) >= 1
    && Average(a, col).Some? && Average(b, col).Some? && Average(a, col) != Average(b, col)
  }

  lemma StayApartOneMore(a: seq<Bucket>, b: seq<Bucket>, e: Bucket, col: Column)
    requires Apart(a, b, col)
    ensures Apart(a + [e], b + [e], col)
  {
    AverageSnoc(a, e, col);
    AverageSnoc(b, e, col);
    var m, n := Samples(a), Count(e);
    if col(e).Some? && Average(a + [e], col) == Average(b + [e], col) {
      MeanDetermines(Average(a, col).value, Average(b, col).value, m, col(e).value, n);
      assert false;
    }
  }

  // Averages that differ stay different, whatever follows.
  lemma {:induction false} StayApart(a: seq<Bucket>, b: seq<Bucket>, tail: seq<Bucket>, col: Column)
    requires Apart(a, b, col)
    ensures Apart(a + tail, b + tail, col)
    decreases |tail|
  {
    if tail == [] {
      assert a + tail == a && b + tail == b;
    } else {
      var n := |tail| - 1;
      StayApart(a, b, tail[..n], col);
      StayApartOneMore(a + tail[..n], b + tail[..n], tail[n], col);
      assert a + tail == a + tail[..n] + [tail[n]] && b + tail == b + tail[..n] + [tail[n]];
    }
  }

  lemma ThreeApart(x: Bucket, y: Bucket, z: Bucket, col: Column)
    requires col(x).Some? && col(y).Some? && col(x) != col(y) && col(z).None?
    ensures Apart([x, z, y], [x, y, z], col)
  {
    assert [x] + [z] + [y] == [x, z, y] && [x] + [y] + [z] == [x, y, z];
    assert [x][..0] == [];
    LastCounted([x]);
    AverageSnoc([x], z, col);
    AverageSnoc([x] + [z], y, col);
    AverageSnoc([x], y, col);
    AverageSnoc([x] + [y], z, col);
    if Average([x, z, y], col) == Average([x, y, z], col) {
      GapAgrees(col(x).value, Count(x), Count(z), col(y).value, Count(y));
      assert false;
    }
  }

  // Any element can be moved to the front.
  lemma ToFront(bs: seq<Bucket>, x: Bucket) returns (rest: seq<Bucket>)
    requires x in bs
    ensures multiset(bs) == multiset{x} + multiset(rest)
    ensures forall b | b in bs && b != x :: b in rest
  {
    var i :| 0 <= i < |bs| && bs[i] == x;
    rest := bs[..i] + bs[i + 1..];
    BagWithout(bs, i);
    assert x in multiset(bs);
    forall b | b in bs && b != x ensures b in rest {
      assert b in multiset(bs);
      assert b in multiset(rest);
    }
  }

  lemma ThreeToFront(bs: seq<Bucket>, x: Bucket, y: Bucket, z: Bucket) returns (tail: seq<Bucket>)
    requires x in bs && y in bs && z in bs && x != y && y != z && x != z
    ensures Shuffle([x, z, y] + tail, bs) && Shuffle([x, y, z] + tail, bs)
  {
    var r1 := ToFront(bs, x);
    var r2 := ToFront(r1, y);
    tail := ToFront(r2, z);
    BagOfThree(x, z, y, tail);
    BagOfThree(x, y, z, tail);
    Regroup(multiset{x}, multiset{y}, multiset{z}, multiset(tail));
  }

  lemma BagOfThree(u: Bucket, v: Bucket, w: Bucket, tail: seq<Bucket>)
    ensures multiset([u, v, w] + tail) == multiset{u} + multiset{v} + multiset{w} + multiset(tail)
  {
    assert multiset([u, v, w]) == multiset{u} + multiset{v} + multiset{w};
  }

  lemma Regroup(x: multiset<Bucket>, y: multiset<Bucket>, z: multiset<Bucket>, t: multiset<Bucket>)
    ensures x + z + y + t == x + (y + (z + t)) && x + y + z + t == x + (y + (z + t))
  {}

  lemma SomeOrdersDiffer(bs: seq<Bucket>, x: Bucket, y: Bucket, z: Bucket, col: Column)
    requires bs != [] && x in bs && y in bs && z in bs
    requires col(x).Some? && col(y).Some? && col(x) != col(y) && col(z).None?
    ensures !AnyOrderAverages(bs, col)
  {
    var tail := ThreeToFront(bs, x, y, z);
    ThreeApart(x, y, z, col);
    StayApart([x, z, y], [x, y, z], tail, col);
    assert Average([x, z, y] + tail, col) != Average([x, y, z] + tail, col);
  }

  // The average is the same in every order exactly if every observation has a value, or all values agree.
  lemma AverageOrderExactly(bs: seq<Bucket>, col: Column)
    requires bs != []
    ensures AnyOrderAverages(bs, col) <==> AllKnown(bs, col) || KnownAgree(bs, col)
  {
    if AllKnown(bs, col) {
      KnownAveragesAnyOrder(bs, col);
    } else if KnownAgree(bs, col) {
      AgreedAveragesAnyOrder(bs, col);
    } else {
      var k :| 0 <= k < |bs| && !col(bs[k]).Some?;
      var i, j :| 0 <= i < |bs| && 0 <= j < |bs| && col(bs[i]).Some? && col(bs[j]).Some? && col(bs[i]) != col(bs[j]);
      SomeOrdersDiffer(bs, bs[i], bs[j], bs[k], col);
    }
  }

  /* ---- the two columns ---- */

  function TimeOf(b: Bucket): Option<real> { b.processing }

  // Zero and negative payloads stand for none.
  function PayloadOf(b: Bucket): Option<real> { if b.payload > 0.0 then Some(b.payload) else None }

  lemma {:induction false} TimeIsAverage(bs: seq<Bucket>)
    requires bs != []
    ensures Merged(bs).processing == Average(bs, TimeOf)
    decreases |bs|
  {
    var n := |bs| - 1;
    if n > 0 {
      TimeIsAverage(bs[..n]);
      MergedSamples(bs[..n]);
    }
  }

  lemma MeanIsPositive(x: real, m: int, y: real, n: int)
    requires x > 0.0 && y > 0.0 && m >= 1 && n >= 1
    ensures Mean(x, m, y, n) > 0.0
  {
    var lo, hi := if x < y then x else y, if x < y then y else x;
    MeanBetween(lo, x, m, y, n, hi);
  }

  // The payload column is the average where that exists, and otherwise the first payload.
  lemma {:induction false} PayloadIsAverage(bs: seq<Bucket>)
    requires bs != []
    ensures var v := Average(bs, PayloadOf); var p := Merged(bs).payload;
            if v.Some? then p == v.value > 0.0 else p == bs[0].payload <= 0.0
    decreases |bs|
  {
    var n := |bs| - 1;
    if n > 0 {
      PayloadIsAverage(bs[..n]);
      MergedSamples(bs[..n]);
      var v := Average(bs[..n], PayloadOf);
      if v.Some? && bs[n].payload > 0.0 { MeanIsPositive(v.value, Samples(bs[..n]), bs[n].payload, Count(bs[n])); }
    }
  }

  ghost predicate AnyOrderSameTime(bs: seq<Bucket>)
    requires bs != []
  {
    forall a | Shuffle(a, bs) :: Merged(a).processing == Merged(bs).processing
  }

  // The average processing time does not depend on the order of the upserts exactly if every observation
  // carries a time, or all times that are carried agree.
  lemma TimeOrderExactly(bs: seq<Bucket>)
    requires bs != []
    ensures AnyOrderSameTime(bs) <==> AllKnown(bs, TimeOf) || KnownAgree(bs, TimeOf)
  {
    AverageOrderExactly(bs, TimeOf);
    forall a: seq<Bucket> | Shuffle(a, bs) ensures Merged(a).processing == Average(a, TimeOf) { TimeIsAverage(a); }
    TimeIsAverage(bs);
  }

  // It does depend on it for a fast, an unknown and a slow observation.
  lemma TimeDependsOnOrder(k: Bucket)
    ensures var fast := k.(processing := Some(10.0), samples := 1);
            var unknown := k.(processing := None, samples := 1);
            var slow := k.(processing := Some(40.0), samples := 1);
            !AnyOrderSameTime([fast, unknown, slow])
  {
    var bs := [k.(processing := Some(10.0), samples := 1), k.(processing := None, samples := 1),
               k.(processing := Some(40.0), samples := 1)];
    TimeOrderExactly(bs);
    assert TimeOf(bs[0]) == Some(10.0) && TimeOf(bs[1]) == None && TimeOf(bs[2]) == Some(40.0);
  }

  ghost predicate AnyOrderSamePayload(bs: seq<Bucket>)
    requires bs != []
  {
    forall a | Shuffle(a, bs) :: Merged(a).payload == Merged(bs).payload
  }

  predicate PayloadsAgree(bs: seq<Bucket>) {
    forall i, j | 0 <= i < |bs| && 0 <= j < |bs| :: bs[i].payload == bs[j].payload
  }

  // The average payload does not depend on the order exactly if every payload is positive, or some are and
  // those agree, or none is and all are equal.
  lemma PayloadOrderExactly(bs: seq<Bucket>)
    requires bs != []
    ensures AnyOrderSamePayload(bs)
       <==> AllKnown(bs, PayloadOf) || if AnyKnown(bs, PayloadOf) then KnownAgree(bs, PayloadOf) else PayloadsAgree(bs)
  {
    if AnyKnown(bs, PayloadOf) {
      PositiveOrder(bs);
      AverageOrderExactly(bs, PayloadOf);
    } else {
      FirstPayloadOrder(bs);
    }
  }

  lemma {:induction false} AverageExists(bs: seq<Bucket>, col: Column)
    requires bs != []
    ensures Average(bs, col).Some? <==> AnyKnown(bs, col)
    decreases |bs|
  {
    var n := |bs| - 1;
    if n > 0 {
      AverageExists(bs[..n], col);
      if AnyKnown(bs[..n], col) { var i :| 0 <= i < n && col(bs[..n][i]).Some?; assert col(bs[i]).Some?; }
      if AnyKnown(bs, col) && col(bs[n]).None? {
        var i :| 0 <= i <= n && col(bs[i]).Some?;
        assert col(bs[..n][i]).Some?;
      }
    }
  }

  lemma ShuffleKnows(a: seq<Bucket>, bs: seq<Bucket>, col: Column)
    requires Shuffle(a, bs)
    ensures AnyKnown(a, col) <==> AnyKnown(bs, col)
  {
    SameMembers(a, bs);
    if AnyKnown(a, col) { var i :| 0 <= i < |a| && col(a[i]).Some?; assert a[i] in bs; }
    if AnyKnown(bs, col) { var i :| 0 <= i < |bs| && col(bs[i]).Some?; assert bs[i] in a; }
  }

  lemma PositiveOrder(bs: seq<Bucket>)
    requires bs != [] && AnyKnown(bs, PayloadOf)
    ensures AnyOrderSamePayload(bs) <==> AnyOrderAverages(bs, PayloadOf)
  {
    PayloadIsAverage(bs);
    AverageExists(bs, PayloadOf);
    forall a: seq<Bucket> | Shuffle(a, bs) ensures Average(a, PayloadOf) == Some(Merged(a).payload) {
      ShuffleKnows(a, bs, PayloadOf);
      AverageExists(a, PayloadOf);
      PayloadIsAverage(a);
    }
  }

  lemma FirstPayloadOrder(bs: seq<Bucket>)
    requires bs != [] && !AnyKnown(bs, PayloadOf)
    ensures AnyOrderSamePayload(bs) <==> PayloadsAgree(bs)
  {
    FirstPayload(bs, bs);
    if AnyOrderSamePayload(bs) {
      forall i | 0 <= i < |bs| ensures bs[i].payload == Merged(bs).payload { MovedPayload(bs, i); }
    }
    if PayloadsAgree(bs) {
      forall a | Shuffle(a, bs) ensures Merged(a).payload == Merged(bs).payload { FirstPayload(a, bs); }
    }
  }

  lemma FirstPayload(a: seq<Bucket>, bs: seq<Bucket>)
    requires Shuffle(a, bs) && !AnyKnown(bs, PayloadOf)
    ensures Merged(a).payload == a[0].payload && a[0] in bs
  {
    ShuffleKnows(a, bs, PayloadOf);
    AverageExists(a, PayloadOf);
    PayloadIsAverage(a);
    SameMembers(a, bs);
  }

  lemma MovedPayload(bs: seq<Bucket>, i: nat)
    requires i < |bs| && !AnyKnown(bs, PayloadOf) && AnyOrderSamePayload(bs)
    ensures bs[i].payload == Merged(bs).payload
  {
    var rest := ToFront(bs, bs[i]);
    var a := [bs[i]] + rest;
    assert Shuffle(a, bs);
    FirstPayload(a, bs);
  }
}
