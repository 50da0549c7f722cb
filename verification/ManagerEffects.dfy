/** What each step of the connection manager does to generations, clients, status channels and statuses. */
module ManagerEffects {
  import opened ConnectionManager
  import opened Wrappers

  /* ---- generations and clients ---- */

  // The step drops the client of c, or replaces it. An eviction counts even when nothing is cached.
  predicate Drops(s: State, a: Action, c: Id) {
    match a
    case Dialed(d) => d == c && c in s.pool.cache
    case SessionNow(d, reuse) => d == c && c in s.pool.cache && !reuse
    case Evict(d) => d == c
    case Sweep(order) => c in order
    case Stop(order, _) => c in order
    case _ => false
  }

  predicate Dials(s: State, a: Action, c: Id) {
    match a
    case Dialed(d) => d == c
    case SessionNow(d, reuse) => d == c && !(reuse && c in s.pool.cache)
    case _ => false
  }

  lemma {:induction false} DropAllAt(p: Pool, order: seq<Id>, c: Id)
    requires DistinctIds(order)
    ensures Gen(DropAll(p, order), c) == Gen(p, c) + if c in order then 1 else 0
    ensures DropAll(p, order).cache == p.cache - (set d | d in order) && DropAll(p, order).dialed == p.dialed
  {
    if order != [] {
      var n := |order| - 1;
      DropAllAt(p, order[..n], c);
      assert order == order[..n] + [order[n]];
      assert order[n] !in order[..n];
    }
  }

  // A generation moves exactly when a client is dropped or replaced, and then by one; a new client is cached
  // exactly when one is dialed; and what is not dropped stays cached.
  lemma ClientsExactly(s: State, a: Action, c: Id)
    requires Can(s, a)
    ensures var (p, q) := (s.pool, Step(s, a).pool);
            && Gen(q, c) == Gen(p, c) + (if Drops(s, a, c) then 1 else 0)
            && (Dials(s, a, c) ==> Cached(q, c, p.dialed) && q.dialed == p.dialed + 1)
            && (!Dials(s, a, c) ==>
                  (c in q.cache <==> c in p.cache && !Drops(s, a, c)) && (c in q.cache ==> q.cache[c] == p.cache[c]))
  {
    if a.Sweep? || a.Stop? { DropAllAt(s.pool, a.order, c); }
  }

  // A session passes after a step exactly if it passed before and the step neither closed it nor dropped the
  // client of its cluster.
  lemma PassesExactly(actions: seq<Action>, a: Action, i: nat)
    requires Can(After(actions), a) && i < |After(actions).pool.sessions|
    ensures var s := After(actions);
            var (p, q) := (s.pool, Step(s, a).pool);
            && i < |q.sessions|
            && (Passes(q, q.sessions[i]) <==>
                  Passes(p, p.sessions[i]) && a != CloseHandle(i) && !Drops(s, a, p.sessions[i].cluster))
  {
    RunsKeepInv(actions);
    var s := After(actions);
    assert SessionOk(s.pool, s.pool.sessions[i]);
    ClientsExactly(s, a, s.pool.sessions[i].cluster);
    StepSessions(s.pool, a, i);
  }

  lemma StepSessions(p: Pool, a: Action, i: nat)
    requires i < |p.sessions|
    ensures var q := StepPool(p, a);
            && i < |q.sessions|
            && q.sessions[i] == if a == CloseHandle(i) then p.sessions[i].(closed := true) else p.sessions[i]
  {
    if a.Sweep? || a.Stop? { DropAllFrames(p, a.order); }
  }

  /* ---- status channels ---- */

  const DOWN := Snapshot(false, Status(false, false))

  // What the step sends to the channels of a cluster. A cluster without a status has nothing to say when it
  // is evicted.
  function Sent(s: State, a: Action, c: Id): Option<Snapshot> {
    match a
    case Record(d, st) => if d == c then Some(Snapshot(c in s.pool.cache, st)) else None
    case Evict(d) => if d == c && c in s.board.status then Some(DOWN) else None
    case Sweep(order) => if c in order && c in s.board.status then Some(DOWN) else None
    case _ => None
  }

  // An open channel with room gets it.
  function Delivered(ch: Chan, x: Option<Snapshot>): seq<Snapshot> {
    if x.Some? && ch.open && |ch.buffer| < 4 then ch.buffer + [x.value] else ch.buffer
  }

  // Another state of one channel.
  predicate ChanIs(ch: Chan, was: Chan, open: bool, buffer: seq<Snapshot>) {
    ch.cluster == was.cluster && ch.open == open && ch.buffer == buffer
  }

  lemma PublishAt(b: Board, c: Id, x: Snapshot, k: nat)
    requires BoardInv(b) && k < |b.chans|
    ensures var (ch, ch') := (b.chans[k], Publish(b, c, x).chans[k]);
            ChanIs(ch', ch, ch.open, if ch.cluster == c then Delivered(ch, Some(x)) else ch.buffer)
  {
    assert ChanOk(b, k);
    assert c in b.listeners ==> ListOk(b, c);
  }

  lemma ForgetAt(b: Board, c: Id, k: nat)
    requires BoardInv(b) && k < |b.chans|
    ensures var (ch, b1) := (b.chans[k], Forget(b, c));
            && |b1.chans| == |b.chans| && (forall d :: d in b1.status <==> d in b.status && d != c)
            && (forall d <- b1.status :: b1.status[d] == b.status[d])
            && ChanIs(b1.chans[k], ch, ch.open,
                      if ch.cluster == c && c in b.status then Delivered(ch, Some(DOWN)) else ch.buffer)
  {
    PublishAt(b, c, DOWN, k);
  }

  lemma {:induction false} ForgetAllAt(b: Board, order: seq<Id>, k: nat)
    requires BoardInv(b) && DistinctIds(order) && k < |b.chans|
    ensures var (ch, b1) := (b.chans[k], ForgetAll(b, order));
            && BoardInv(b1)
            && |b1.chans| == |b.chans| && (forall d :: d in b1.status <==> d in b.status && d !in order)
            && (forall d <- b1.status :: b1.status[d] == b.status[d])
            && ChanIs(b1.chans[k], ch, ch.open,
                      if ch.cluster in order && ch.cluster in b.status then Delivered(ch, Some(DOWN)) else ch.buffer)
  {
    if order != [] {
      var n := |order| - 1;
      ForgetAllAt(b, order[..n], k);
      ForgetAllKeeps(b, order);
      ForgetAt(ForgetAll(b, order[..n]), order[n], k);
      assert order == order[..n] + [order[n]];
      assert order[n] !in order[..n];
    }
  }

  // Every listener that has room gets what is recorded for its cluster, and the last word when the cluster is
  // evicted; nobody else gets anything. A channel closes when its listener leaves or the manager stops.
  lemma ChannelsExactly(actions: seq<Action>, a: Action, k: nat)
    requires Can(After(actions), a) && k < |After(actions).board.chans|
    ensures var (s, s') := (After(actions), Step(After(actions), a));
            var ch := s.board.chans[k];
            && k < |s'.board.chans|
            && ChanIs(s'.board.chans[k], ch, ch.open && a != UnsubscribeStatus(k) && !a.Stop?,
                      if a == Take(k) && ch.buffer != [] then ch.buffer[1..] else Delivered(ch, Sent(s, a, ch.cluster)))
  {
    RunsKeepInv(actions);
    var s := After(actions);
    var c := s.board.chans[k].cluster;
    assert ChanOk(s.board, k);
    match a
    case Record(d, st) =>
      var b1 := s.board.(status := s.board.status[d := st]);
      SameListeners(s.board, b1);
      PublishAt(b1, d, Snapshot(d in s.pool.cache, st), k);
    case Evict(d) => ForgetAt(s.board, d, k);
    case Sweep(order) => ForgetAllAt(s.board, order, k);
    case Stop(_, clusters) => StopAt(s.board, clusters, k);
    case UnsubscribeStatus(j) => UnsubscribeAt(s.board, j, k);
    case _ =>
  }

  lemma StopAt(b: Board, clusters: seq<Id>, k: nat)
    requires BoardInv(b) && Visits(clusters, b.listeners.Keys) && k < |b.chans|
    ensures var (ch, b1) := (b.chans[k], StopBoard(b, clusters));
            k < |b1.chans| && ChanIs(b1.chans[k], ch, false, ch.buffer)
  {
    ShutClustersAt(b, clusters, k);
    assert ChanOk(b, k);
    assert b.chans[k].cluster in b.listeners ==> ListOk(b, b.chans[k].cluster);
  }

  lemma UnsubscribeAt(b: Board, j: nat, k: nat)
    requires BoardInv(b) && k < |b.chans|
    ensures var (ch, b1) := (b.chans[k], Unsubscribe(b, j));
            k < |b1.chans| && ChanIs(b1.chans[k], ch, ch.open && j != k, ch.buffer)
  {
    assert ChanOk(b, k);
    assert "" in b.listeners ==> ListOk(b, "");
  }

  // A subscription adds one channel, with nothing in it, open unless the cluster is unnamed.
  lemma SubscribesExactly(s: State, a: Action)
    requires BoardInv(s.board) && Can(s, a) && !a.Stop? && !a.Sweep?
    ensures var (chans, chans') := (s.board.chans, Step(s, a).board.chans);
            && |chans'| == |chans| + (if a.SubscribeStatus? then 1 else 0)
            && (a.SubscribeStatus? ==> chans'[|chans|].cluster == a.c && chans'[|chans|].open == (a.c != "")
                                       && chans'[|chans|].buffer == [])
  {}

  // The status of a cluster is what was last recorded for it, until it is evicted.
  lemma StatusExactly(s: State, a: Action, c: Id)
    requires BoardInv(s.board) && Can(s, a)
    ensures var (st, st') := (s.board.status, Step(s, a).board.status);
            && (a.Record? && a.c == c ==> c in st' && st'[c] == a.st)
            && (a == StatusSnapshot(c) || (a == SubscribeStatus(c) && c != "") ==> c in st')
            && (a == Evict(c) || (a.Sweep? && c in a.order) ==> c !in st')
            && (!(a.Record? && a.c == c) && a != Evict(c) && !(a.Sweep? && c in a.order) ==>
                  && (c in st ==> c in st' && st'[c] == st[c])
                  && (c in st' && c !in st ==> st'[c] == Status(false, false)))
  {
    if a.Sweep? { StatusesAfter(s.board, a.order); }
  }

  lemma {:induction false} StatusesAfter(b: Board, order: seq<Id>)
    ensures var b1 := ForgetAll(b, order);
            && (forall d :: d in b1.status <==> d in b.status && d !in order)
            && (forall d <- b1.status :: b1.status[d] == b.status[d])
  {
    if order != [] {
      var n := |order| - 1;
      StatusesAfter(b, order[..n]);
      assert order == order[..n] + [order[n]];
    }
  }

  // Every step is possible at any time, a sweep for any cached clusters, a stop in any order of the two maps.
  lemma StepsArePossible(s: State, a: Action)
    requires a.Sweep? ==> DistinctIds(a.order) && forall c | c in a.order :: c in s.pool.cache
    requires a.Stop? ==> Visits(a.order, s.pool.cache.Keys) && Visits(a.clusters, s.board.listeners.Keys)
    ensures Can(s, a)
  {}
}
