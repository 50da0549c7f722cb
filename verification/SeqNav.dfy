/** Message navigation: a binary search over sparse sequence numbers, with a cache of what was seen. */
module SeqNav {
  import opened Wrappers

  // `Search` is that search over a plain set of existing sequences. Existence is not monotone, so the result
  // need not be the nearest predecessor; `NearestExactly` says when it is.

  newtype uint64 = x: int | 0 <= x < 0x1_0000_0000_0000_0000

  const CACHE_LIMIT := 4096

  /* ---- the search on a set of existing sequences ---- */

  function Mid(lo: nat, hi: nat): nat
    requires lo <= hi
  {
    lo + (hi - lo) / 2
  }

  function Search(ex: set<nat>, first: nat, lo: nat, hi: int, found: Option<nat>): Option<nat>
    decreases hi + 1 - lo
  {
    if lo > hi then found
    else
      var mid := Mid(lo, hi);
      if mid in ex then Search(ex, first, mid + 1, hi, Some(mid))
      else if mid == first then found
      else Search(ex, first, lo, mid - 1, found)
  }

  function PrevSeq(ex: set<nat>, first: nat, s: nat): Option<nat> {
    if s <= first then None else Search(ex, first, first, s - 1, None)
  }

  // The midpoints below p that the search meets on its way to p.  They depend on the bounds alone.
  function ProbesBelow(lo: nat, hi: int, p: nat): set<nat>
    decreases hi + 1 - lo
  {
    if lo > hi then {}
    else
      var mid := Mid(lo, hi);
      if mid < p then {mid} + ProbesBelow(mid + 1, hi, p)
      else if mid == p then {}
      else ProbesBelow(lo, mid - 1, p)
  }

  ghost predicate Nearest(ex: set<nat>, first: nat, s: nat, p: nat) {
    p in ex && first <= p < s && forall k <- ex :: k < s ==> k <= p
  }

  lemma {:induction false} SearchResult(ex: set<nat>, first: nat, lo: nat, hi: int, found: Option<nat>, s: nat)
    requires first <= lo <= hi + 1 && hi < s && (hi == s - 1 || hi + 1 !in ex)
    requires match found case Some(f) => f in ex && f + 1 == lo && first <= f case None => lo == first
    ensures var r := Search(ex, first, lo, hi, found);
            && (r.Some? ==> r.value in ex && first <= r.value < s && (r.value == s - 1 || r.value + 1 !in ex))
            && (found.Some? ==> r.Some?)
    decreases hi + 1 - lo
  {
    if lo <= hi {
      var mid := Mid(lo, hi);
      if mid in ex { SearchResult(ex, first, mid + 1, hi, Some(mid), s); }
      else if mid != first { SearchResult(ex, first, lo, mid - 1, found, s); }
    }
  }

  // Whatever the gaps: a result exists, lies in [first, s), and is s - 1 or has an absent successor.
  lemma ResultExists(ex: set<nat>, first: nat, s: nat)
    ensures var r := PrevSeq(ex, first, s);
            r.Some? ==> r.value in ex && first <= r.value < s && (r.value == s - 1 || r.value + 1 !in ex)
  {
    if s > first { SearchResult(ex, first, first, s - 1, None, s); }
  }

  lemma {:induction false} SearchFinds(ex: set<nat>, first: nat, hi: int)
    requires first in ex && first <= hi
    ensures Search(ex, first, first, hi, None).Some?
    decreases hi
  {
    var mid := Mid(first, hi);
    if mid in ex {
      SearchKeeps(ex, first, mid + 1, hi, Some(mid));
    } else {
      SearchFinds(ex, first, mid - 1);
    }
  }

  lemma {:induction false} SearchKeeps(ex: set<nat>, first: nat, lo: nat, hi: int, found: Option<nat>)
    requires found.Some?
    ensures Search(ex, first, lo, hi, found).Some?
    decreases hi + 1 - lo
  {
    if lo <= hi {
      var mid: int := Mid(lo, hi);
      if mid in ex { SearchKeeps(ex, first, mid + 1, hi, Some(mid)); }
      else if mid != first { SearchKeeps(ex, first, lo, mid - 1, found); }
    }
  }

  // When the first sequence is present, as it is on a stream that holds messages, something is found.
  lemma AlwaysFinds(ex: set<nat>, first: nat, s: nat)
    requires first in ex && first < s
    ensures PrevSeq(ex, first, s).Some?
  {
    SearchFinds(ex, first, s - 1);
  }

  lemma {:induction false} SearchBelow(ex: set<nat>, first: nat, lo: nat, hi: int, found: Option<nat>, p: nat)
    requires hi < p && found != Some(p)
    ensures Search(ex, first, lo, hi, found) != Some(p)
    decreases hi + 1 - lo
  {
    if lo <= hi {
      var mid: int := Mid(lo, hi);
      if mid in ex { SearchBelow(ex, first, mid + 1, hi, Some(mid), p); }
      else if mid != first { SearchBelow(ex, first, lo, mid - 1, found, p); }
    }
  }

  lemma {:induction false} SearchAbove(ex: set<nat>, first: nat, lo: nat, hi: int, p: nat)
    requires first < lo && forall k | lo <= k <= hi :: k !in ex
    ensures Search(ex, first, lo, hi, Some(p)) == Some(p)
    decreases hi + 1 - lo
  {
    if lo <= hi { SearchAbove(ex, first, lo, Mid(lo, hi) - 1, p); }
  }

  lemma {:induction false} SearchExactly(ex: set<nat>, first: nat, lo: nat, hi: int, found: Option<nat>, p: nat)
    requires first <= lo <= p <= hi && p in ex && found != Some(p)
    requires forall k <- ex :: k <= p || k > hi
    ensures Search(ex, first, lo, hi, found) == Some(p) <==> ProbesBelow(lo, hi, p) <= ex
    decreases hi + 1 - lo
  {
    var mid := Mid(lo, hi);
    if mid == p {
      SearchAbove(ex, first, mid + 1, hi, p);
    } else if mid > p {
      SearchExactly(ex, first, lo, mid - 1, found, p);
    } else if mid in ex {
      SearchExactly(ex, first, mid + 1, hi, Some(mid), p);
    } else {
      assert mid in ProbesBelow(lo, hi, p);
      if mid != first { SearchBelow(ex, first, lo, mid - 1, found, p); }
    }
  }

  // The result is the nearest existing sequence below s exactly when every midpoint the search meets
  // below that sequence exists too.
  lemma NearestExactly(ex: set<nat>, first: nat, s: nat, p: nat)
    requires Nearest(ex, first, s, p)
    ensures PrevSeq(ex, first, s) == Some(p) <==> ProbesBelow(first, s - 1, p) <= ex
  {
    SearchExactly(ex, first, first, s - 1, None, p);
  }

  // In particular when what exists below s is a contiguous run from the first sequence.
  lemma NearestWhenContiguous(ex: set<nat>, first: nat, s: nat, p: nat)
    requires Nearest(ex, first, s, p) && forall k | first <= k <= p :: k in ex
    ensures PrevSeq(ex, first, s) == Some(p)
  {
    NearestExactly(ex, first, s, p);
    ProbesInRange(first, s - 1, p);
  }

  lemma {:induction false} ProbesInRange(lo: nat, hi: int, p: nat)
    ensures forall k <- ProbesBelow(lo, hi, p) :: lo <= k < p
    decreases hi + 1 - lo
  {
    if lo <= hi {
      var mid := Mid(lo, hi);
      if mid < p { ProbesInRange(mid + 1, hi, p); }
      else if mid > p { ProbesInRange(lo, mid - 1, p); }
    }
  }

  // The nearest predecessor can be missed: with a and a + 3 stored, the search below a + 4 meets the
  // absent midpoint a + 1 and turns away from a + 3.
  lemma NearestCanBeMissed(ex: set<nat>, a: nat)
    requires ex == {a, a + 3}
    ensures Nearest(ex, a, a + 4, a + 3) && PrevSeq(ex, a, a + 4) != Some(a + 3)
  {
    NearestExactly(ex, a, a + 4, a + 3);
    assert Mid(a, a + 3) in ProbesBelow(a, a + 3, a + 3);
  }

  /* ---- probes ---- */

  // The number of binary digits, floor(log2 n) + 1 for positive n.
  function Bits(n: nat): nat { if n == 0 then 0 else 1 + Bits(n / 2) }

  function Pow2(n: nat): nat { if n == 0 then 1 else 2 * Pow2(n - 1) }

  lemma {:induction false} BitsIsLog(n: nat)
    requires n > 0
    ensures Pow2(Bits(n) - 1) <= n < Pow2(Bits(n))
  {
    if n > 1 { BitsIsLog(n / 2); }
  }

  lemma {:induction false} BitsMonotone(m: nat, n: nat)
    requires m <= n
    ensures Bits(m) <= Bits(n)
  {
    if m > 0 { BitsMonotone(m / 2, n / 2); }
  }

  /* ---- the cache ---- */

  datatype SeqBits = SeqBits(present: set<nat>, absent: set<nat>)

  datatype Probe = Present | Absent | Broken

  class SeqExistsCache {
    var byKey: map<string, SeqBits>

    constructor ()
      ensures byKey == map[]
    {
      byKey := map[];
    }

    function Lookup(stream: string, s: nat): Option<bool>
      reads this
    {
      if stream !in byKey then None
      else if s in byKey[stream].present then Some(true)
      else if s in byKey[stream].absent then Some(false)
      else None
    }

    // What the cache claims about a stream is true of it.
    ghost predicate Sound(stream: string, ex: set<nat>)
      reads this
    {
      forall s: nat :: Lookup(stream, s).Some? ==> (Lookup(stream, s).value <==> s in ex)
    }

    ghost predicate Bounded()
      reads this
    {
      forall k <- byKey :: byKey[k].present !! byKey[k].absent && |byKey[k].present| + |byKey[k].absent| <= CACHE_LIMIT
    }

    method Known(stream: string, s: nat) returns (exists_: bool, known: bool)
      ensures known <==> Lookup(stream, s).Some?
      ensures known ==> Lookup(stream, s) == Some(exists_)
    {
      if stream !in byKey { return false, false; }
      var bits := byKey[stream];
      if s in bits.present { return true, true; }
      if s in bits.absent { return false, true; }
      return false, false;
    }

    // A stream's cache is full, and s is not in it.
    predicate Overflows(stream: string, s: nat)
      reads this
    {
      stream in byKey && Lookup(stream, s).None? && |byKey[stream].present| + |byKey[stream].absent| >= CACHE_LIMIT
    }

    // The mark is remembered and other streams are untouched. Everything else about the stream is forgotten
    // if the cache overflows, and kept otherwise, so it stays within its limit.
    method Mark(stream: string, s: nat, exists_: bool)
      requires Bounded()
      modifies this
      ensures Bounded()
      ensures Lookup(stream, s) == Some(exists_)
      ensures forall k: nat | k != s ::
              Lookup(stream, k) == if old(Overflows(stream, s)) then None else old(Lookup(stream, k))
      ensures forall t, k: nat | t != stream :: Lookup(t, k) == old(Lookup(t, k))
    {
      var bits := if stream in byKey then byKey[stream] else SeqBits({}, {});
      var bits' := if exists_ then SeqBits(bits.present + {s}, bits.absent - {s})
          else SeqBits(bits.present - {s}, bits.absent + {s});
      if |bits'.present| + |bits'.absent| > CACHE_LIMIT {
        bits' := if exists_ then SeqBits({s}, {}) else SeqBits({}, {s});
      }
      byKey := byKey[stream := bits'];
    }
  }

  ghost predicate Truthful(server: uint64 -> Probe, ex: set<nat>) {
    forall k: uint64 :: (server(k).Present? ==> k as nat in ex) && (server(k).Absent? ==> k as nat !in ex)
  }

  // The cached existence check of one sequence; None when the probe breaks. What is cached is not probed
  // again, and what is probed is cached.
  method Exists(cache: SeqExistsCache, stream: string, s: uint64, server: uint64 -> Probe, ghost ex: set<nat>)
      returns (r: Option<bool>)
    requires cache.Bounded() && cache.Sound(stream, ex) && Truthful(server, ex)
    modifies cache
    ensures cache.Bounded() && cache.Sound(stream, ex)
    ensures r.Some? ==> (r.value <==> s as nat in ex)
    ensures r.None? <==> old(cache.Lookup(stream, s as nat)).None? && server(s).Broken?
    ensures r.Some? ==> cache.Lookup(stream, s as nat) == r
  {
    var exists_, known := cache.Known(stream, s as nat);
    if known { return Some(exists_); }
    match server(s)
    case Present =>
      cache.Mark(stream, s as nat, true);
      return Some(true);
    case Absent =>
      cache.Mark(stream, s as nat, false);
      return Some(false);
    case Broken =>
      return None;
  }

  lemma HalvesAreShorter(lo: nat, hi: nat)
    requires lo <= hi
    ensures 1 + Bits(Mid(lo, hi) - lo) <= Bits(hi + 1 - lo) && 1 + Bits(hi - Mid(lo, hi)) <= Bits(hi + 1 - lo)
  {
    BitsMonotone(Mid(lo, hi) - lo, (hi + 1 - lo) / 2);
    BitsMonotone(hi - Mid(lo, hi), (hi + 1 - lo) / 2);
  }

  // The midpoint is taken without leaving the range of uint64.
  function Middle(lo: uint64, hi: uint64): (mid: uint64)
    requires lo <= hi
    ensures lo <= mid <= hi && mid as nat == Mid(lo as nat, hi as nat)
  {
    lo + (hi - lo) / 2
  }

  // One round of the search, and what is left of the budget in either half.
  lemma OneProbe(ex: set<nat>, first: nat, lo: nat, hi: nat, found: Option<nat>, mid: nat, looked: nat, budget: nat)
    requires lo <= hi && mid == Mid(lo, hi) && looked + Bits(hi + 1 - lo) <= budget
    ensures Search(ex, first, lo, hi, found)
         == if mid in ex then Search(ex, first, mid + 1, hi, Some(mid))
            else if mid == first then found
            else Search(ex, first, lo, mid - 1, found)
    ensures looked + 1 + Bits(mid - lo) <= budget && looked + 1 + Bits(hi - mid) <= budget
  {
    HalvesAreShorter(lo, hi);
  }

  function Best(have: bool, found: uint64): Option<nat> { if have then Some(found as nat) else None }

  // The midpoints the search meets.
  function Met(ex: set<nat>, first: nat, lo: nat, hi: int): set<nat>
    decreases hi + 1 - lo
  {
    if lo > hi then {}
    else
      var mid := Mid(lo, hi);
      {mid} + if mid in ex then Met(ex, first, mid + 1, hi)
              else if mid == first then {}
              else Met(ex, first, lo, mid - 1)
  }

  // What the loop of findPrevSeq keeps: the search that is left yields the result, within what is left of
  // the probes.
  ghost predicate OnTrack(ex: set<nat>, first: nat, s: nat, lo: nat, hi: int, best: Option<nat>, looked: nat)
    requires first < s
  {
    && first <= lo <= hi + 1 <= s
    && PrevSeq(ex, first, s) == Search(ex, first, lo, hi, best)
    && looked + Bits(hi + 1 - lo) <= Bits(s - first)
    && Met(ex, first, lo, hi) <= Met(ex, first, first, s - 1)
  }

  lemma ProbeKeepsTrack(ex: set<nat>, first: nat, s: nat, lo: nat, hi: nat, best: Option<nat>, looked: nat, mid: nat)
    requires first < s && lo <= hi && mid == Mid(lo, hi) && OnTrack(ex, first, s, lo, hi, best, looked)
    ensures mid in ex ==> OnTrack(ex, first, s, mid + 1, hi, Some(mid), looked + 1)
    ensures mid !in ex && mid == first ==> PrevSeq(ex, first, s) == best && looked + 1 <= Bits(s - first)
    ensures mid !in ex && mid != first ==> OnTrack(ex, first, s, lo, mid - 1, best, looked + 1)
    ensures looked + 1 <= Bits(s - first) && mid in Met(ex, first, first, s - 1)
  {
    OneProbe(ex, first, lo, hi, best, mid, looked, Bits(s - first));
  }

  ghost predicate SomeBreaks(server: uint64 -> Probe, probes: set<nat>) {
    exists k: uint64 :: k as nat in probes && server(k).Broken?
  }

  datatype Round = More | Over | Failed

  // One round of the loop of findPrevSeq.
  method ProbeOnce(cache: SeqExistsCache, stream: string, s: uint64, first: uint64, server: uint64 -> Probe,
                   lo0: uint64, hi0: uint64, have0: bool, found0: uint64, ghost ex: set<nat>, ghost looked: nat)
    returns (round: Round, lo: uint64, hi: uint64, have: bool, found: uint64)
    requires cache.Bounded() && cache.Sound(stream, ex) && Truthful(server, ex)
    requires first < s && lo0 <= hi0 < s
    requires OnTrack(ex, first as nat, s as nat, lo0 as nat, hi0 as int, Best(have0, found0), looked)
    modifies cache
    ensures cache.Bounded() && cache.Sound(stream, ex) && looked + 1 <= Bits((s - first) as nat)
    ensures round.More? ==>
              && hi < s && hi as int - lo as int < hi0 as int - lo0 as int
              && OnTrack(ex, first as nat, s as nat, lo as nat, hi as int, Best(have, found), looked + 1)
    ensures round.Over? ==> PrevSeq(ex, first as nat, s as nat) == Best(have, found)
    ensures round.Failed? ==> SomeBreaks(server, Met(ex, first as nat, first as nat, s as int - 1))
  {
    lo, hi, have, found := lo0, hi0, have0, found0;
    var mid := Middle(lo, hi);
    ProbeKeepsTrack(ex, first as nat, s as nat, lo as nat, hi as nat, Best(have, found), looked, mid as nat);
    var known := Exists(cache, stream, mid, server, ex);
    if known.None? { return Failed, lo, hi, have, found; }
    if known.value { return More, mid + 1, hi, true, mid; }
    if mid == first { return Over, lo, hi, have, found; }
    return More, lo, mid - 1, have, found;
  }

  // findPrevSeq. `server` answers one probe per sequence; any sound cache may be supplied. The result is
  // that of the plain search unless a probe it meets breaks, the cache stays sound, and at most
  // floor(log2(s - first)) + 1 sequences are looked at, without leaving the range of uint64.
  method FindPrevSeq(cache: SeqExistsCache, stream: string, s: uint64, first: uint64, server: uint64 -> Probe,
                     ghost ex: set<nat>)
    returns (r: Option<uint64>, ghost looked: nat)
    requires cache.Bounded() && cache.Sound(stream, ex) && Truthful(server, ex)
    modifies cache
    ensures cache.Bounded() && cache.Sound(stream, ex)
    ensures r.Some? ==> PrevSeq(ex, first as nat, s as nat) == Some(r.value as nat)
    ensures r.None? ==> PrevSeq(ex, first as nat, s as nat) == None
                        || SomeBreaks(server, Met(ex, first as nat, first as nat, s as int - 1))
    ensures looked <= if s > first then Bits((s - first) as nat) else 0
  {
    looked := 0;
    if s <= first { return None, 0; }
    var lo, hi := first, s - 1;
    var found: uint64 := 0;
    var have := false;
    while lo <= hi
      invariant hi < s && OnTrack(ex, first as nat, s as nat, lo as nat, hi as int, Best(have, found), looked)
      invariant cache.Bounded() && cache.Sound(stream, ex)
      decreases hi as int + 1 - lo as int
    {
      var round;
      round, lo, hi, have, found := ProbeOnce(cache, stream, s, first, server, lo, hi, have, found, ex, looked);
      looked := looked + 1;
      if round.Failed? { return None, looked; }
      if round.Over? { return if have then Some(found) else None, looked; }
    }
    return if have then Some(found) else None, looked;
  }
}
