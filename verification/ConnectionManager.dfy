/** The connection manager: cached clients, session generations and status listeners. */
module ConnectionManager {
  // Every critical section of the manager's mutex is one step, so any interleaving of callers is a sequence of
  // steps.

  type Id = string

  /* ---- clients and sessions ---- */

  // A caller that got hold of a client, with the generation at that moment.
  datatype Hold = Hold(cluster: Id, client: nat, gen: nat)

  datatype Session = Session(cluster: Id, client: nat, gen: nat, closed: bool, hold: nat)

  // dialed numbers the clients connected so far.
  datatype Pool = Pool(cache: map<Id, nat>, gens: map<Id, nat>, dialed: nat, holds: seq<Hold>, sessions: seq<Session>)

  const NO_CLIENTS := Pool(map[], map[], 0, [], [])

  function Gen(p: Pool, c: Id): nat { if c in p.gens then p.gens[c] else 0 }

  function Bump(p: Pool, c: Id): Pool { p.(gens := p.gens[c := Gen(p, c) + 1]) }

  function Grab(p: Pool, c: Id, client: nat): Pool { p.(holds := p.holds + [Hold(c, client, Gen(p, c))]) }

  // A dialed client replaces the cached one, if any.
  function Install(p: Pool, c: Id): Pool {
    var q := if c in p.cache then Bump(p, c) else p;
    q.(cache := q.cache[c := p.dialed], dialed := p.dialed + 1)
  }

  function Lookup(p: Pool, c: Id): Pool { if c in p.cache then Grab(p, c, p.cache[c]) else p }

  function Dial(p: Pool, c: Id): Pool { Grab(Install(p, c), c, p.dialed) }

  // The session reads the generation now, not when its client was obtained.
  function OpenSession(p: Pool, h: nat): Pool {
    if h < |p.holds| then
      p.(sessions := p.sessions
         + [Session(p.holds[h].cluster, p.holds[h].client, Gen(p, p.holds[h].cluster), false, h)])
    else p
  }

  function CloseSession(p: Pool, i: nat): Pool {
    if i < |p.sessions| then p.(sessions := p.sessions[i := p.sessions[i].(closed := true)]) else p
  }

  function Drop(p: Pool, c: Id): Pool { Bump(p.(cache := p.cache - {c}), c) }

  function DropAll(p: Pool, order: seq<Id>): Pool
    decreases |order|
  {
    if order == [] then p else Drop(DropAll(p, order[..|order| - 1]), order[|order| - 1])
  }

  predicate Passes(p: Pool, s: Session) { !s.closed && Gen(p, s.cluster) == s.gen }

  predicate Cached(p: Pool, c: Id, client: nat) { c in p.cache && p.cache[c] == client }

  // A client once obtained is the cached one for as long as the generation does not move, and never again.
  predicate HoldOk(p: Pool, h: Hold) {
    h.client < p.dialed && h.gen <= Gen(p, h.cluster)
        && (Cached(p, h.cluster, h.client) <==> h.gen == Gen(p, h.cluster))
  }

  predicate SessionOk(p: Pool, s: Session) {
    && s.hold < |p.holds| && s.cluster == p.holds[s.hold].cluster && s.client == p.holds[s.hold].client
    && p.holds[s.hold].gen <= s.gen <= Gen(p, s.cluster)
  }

  predicate PoolInv(p: Pool) {
    && (forall c | c in p.cache :: p.cache[c] < p.dialed)
    && (forall i | 0 <= i < |p.holds| :: HoldOk(p, p.holds[i]))
    && (forall i | 0 <= i < |p.sessions| :: SessionOk(p, p.sessions[i]))
  }

  lemma LookupKeeps(p: Pool, c: Id)
    requires PoolInv(p)
    ensures PoolInv(Lookup(p, c))
  {
    var q := Lookup(p, c);
    forall i | 0 <= i < |p.sessions| ensures SessionOk(q, q.sessions[i]) { assert SessionOk(p, p.sessions[i]); }
    forall i | 0 <= i < |q.holds| ensures HoldOk(q, q.holds[i]) { assert i < |p.holds| ==> HoldOk(p, p.holds[i]); }
  }

  lemma InstallKeeps(p: Pool, c: Id)
    requires PoolInv(p)
    ensures PoolInv(Install(p, c))
  {
    var q := Install(p, c);
    forall i | 0 <= i < |q.holds| ensures HoldOk(q, q.holds[i]) { assert HoldOk(p, p.holds[i]); }
    forall i | 0 <= i < |q.sessions| ensures SessionOk(q, q.sessions[i]) { assert SessionOk(p, p.sessions[i]); }
  }

  lemma DialKeeps(p: Pool, c: Id)
    requires PoolInv(p)
    ensures PoolInv(Dial(p, c))
  {
    InstallKeeps(p, c);
    var m := Install(p, c);
    LookupKeeps(m, c);
    assert Dial(p, c) == Lookup(m, c);
  }

  lemma OpenKeeps(p: Pool, h: nat)
    requires PoolInv(p)
    ensures PoolInv(OpenSession(p, h))
  {
    var q := OpenSession(p, h);
    forall i | 0 <= i < |q.holds| ensures HoldOk(q, q.holds[i]) { assert HoldOk(p, p.holds[i]); }
    forall i | 0 <= i < |q.sessions| ensures SessionOk(q, q.sessions[i]) {
      if i < |p.sessions| { assert SessionOk(p, p.sessions[i]); } else { assert HoldOk(p, p.holds[h]); }
    }
  }

  lemma CloseKeeps(p: Pool, i: nat)
    requires PoolInv(p)
    ensures PoolInv(CloseSession(p, i))
  {
    var q := CloseSession(p, i);
    forall j | 0 <= j < |q.holds| ensures HoldOk(q, q.holds[j]) { assert HoldOk(p, p.holds[j]); }
    forall j | 0 <= j < |q.sessions| ensures SessionOk(q, q.sessions[j]) { assert SessionOk(p, p.sessions[j]); }
  }

  lemma DropKeeps(p: Pool, c: Id)
    requires PoolInv(p)
    ensures PoolInv(Drop(p, c))
  {
    var q := Drop(p, c);
    forall i | 0 <= i < |q.holds| ensures HoldOk(q, q.holds[i]) { assert HoldOk(p, p.holds[i]); }
    forall i | 0 <= i < |q.sessions| ensures SessionOk(q, q.sessions[i]) { assert SessionOk(p, p.sessions[i]); }
  }

  lemma {:induction false} DropAllKeeps(p: Pool, order: seq<Id>)
    requires PoolInv(p)
    ensures PoolInv(DropAll(p, order))
  {
    if order != [] {
      DropAllKeeps(p, order[..|order| - 1]);
      DropKeeps(DropAll(p, order[..|order| - 1]), order[|order| - 1]);
    }
  }

  /* ---- status channels ---- */

  const BUFFER := 4

  datatype Status = Status(connected: bool, jetStreamOK: bool)
  datatype Snapshot = Snapshot(cached: bool, status: Status)

  // closes counts the times the channel was closed, strays the sends after that; either would panic.
  datatype Chan = Chan(cluster: Id, open: bool, closes: nat, strays: nat, buffer: seq<Snapshot>)

  datatype Board = Board(status: map<Id, Status>, listeners: map<Id, set<nat>>, chans: seq<Chan>)

  const NO_LISTENERS := Board(map[], map[], [])

  function Listeners(b: Board, c: Id): set<nat> { if c in b.listeners then b.listeners[c] else {} }

  // A send never blocks: a full buffer drops the snapshot.
  function Send(ch: Chan, x: Snapshot): Chan {
    if !ch.open then ch.(strays := ch.strays + 1)
    else if |ch.buffer| < BUFFER then ch.(buffer := ch.buffer + [x])
    else ch
  }

  function Shut(ch: Chan): Chan { ch.(open := false, closes := ch.closes + 1) }

  function SendTo(chans: seq<Chan>, targets: set<nat>, x: Snapshot): (r: seq<Chan>)
    ensures |r| == |chans|
            && forall k | 0 <= k < |chans| :: r[k] == if k in targets then Send(chans[k], x) else chans[k]
  {
    seq(|chans|, k requires 0 <= k < |chans| => if k in targets then Send(chans[k], x) else chans[k])
  }

  function ShutAll(chans: seq<Chan>, targets: set<nat>): (r: seq<Chan>)
    ensures |r| == |chans| && forall k | 0 <= k < |chans| :: r[k] == if k in targets then Shut(chans[k]) else chans[k]
  {
    seq(|chans|, k requires 0 <= k < |chans| => if k in targets then Shut(chans[k]) else chans[k])
  }

  function Publish(b: Board, c: Id, x: Snapshot): Board { b.(chans := SendTo(b.chans, Listeners(b, c), x)) }

  function Known(b: Board, c: Id): Status { if c in b.status then b.status[c] else Status(false, false) }

  function Subscribe(b: Board, c: Id): Board {
    if c == "" then b.(chans := b.chans + [Chan(c, false, 1, 0, [])])
    else
      b.(chans := b.chans + [Chan(c, true, 0, 0, [])],
         listeners := b.listeners[c := Listeners(b, c) + {|b.chans|}],
         status := b.status[c := Known(b, c)])
  }

  // The closure SubscribeStatus returns; it may be called at any time and again.
  function Unsubscribe(b: Board, k: nat): Board {
    if k >= |b.chans| || b.chans[k].cluster == "" || k !in Listeners(b, b.chans[k].cluster) then b
    else
      var c := b.chans[k].cluster;
      var rest := Listeners(b, c) - {k};
      b.(chans := b.chans[k := Shut(b.chans[k])],
         listeners := if rest == {} then b.listeners - {c} else b.listeners[c := rest])
  }

  // A health probe, a reconnect or a disconnect records a status and publishes it.
  function Mark(b: Board, c: Id, st: Status, cached: bool): Board {
    Publish(b.(status := b.status[c := st]), c, Snapshot(cached, st))
  }

  function Forget(b: Board, c: Id): Board {
    if c in b.status then
      var b1 := Publish(b, c, Snapshot(false, Status(false, false)));
      b1.(status := b1.status - {c})
    else b
  }

  function ForgetAll(b: Board, order: seq<Id>): Board
    decreases |order|
  {
    if order == [] then b else Forget(ForgetAll(b, order[..|order| - 1]), order[|order| - 1])
  }

  function ShutClusters(b: Board, order: seq<Id>): seq<Chan>
    decreases |order|
  {
    if order == [] then b.chans
    else ShutAll(ShutClusters(b, order[..|order| - 1]), Listeners(b, order[|order| - 1]))
  }

  // Stop closes the listeners cluster by cluster, in some order.
  function StopBoard(b: Board, order: seq<Id>): Board { b.(chans := ShutClusters(b, order), listeners := map[]) }

  function Receive(b: Board, k: nat): Board {
    if k < |b.chans| && b.chans[k].buffer != []
        then b.(chans := b.chans[k := b.chans[k].(buffer := b.chans[k].buffer[1..])])
    else b
  }

  predicate ChanOk(b: Board, k: nat)
    requires k < |b.chans|
  {
    var ch := b.chans[k];
    ch.strays == 0 && |ch.buffer| <= BUFFER && ch.closes == (if ch.open then 0 else 1)
        && (ch.open <==> k in Listeners(b, ch.cluster))
  }

  predicate ListOk(b: Board, c: Id)
    requires c in b.listeners
  {
    c != "" && b.listeners[c] != {} && forall k | k in b.listeners[c] :: k < |b.chans| && b.chans[k].cluster == c
  }

  predicate BoardInv(b: Board) {
    (forall k | 0 <= k < |b.chans| :: ChanOk(b, k)) && (forall c | c in b.listeners :: ListOk(b, c))
  }

  lemma PublishKeeps(b: Board, c: Id, x: Snapshot)
    requires BoardInv(b)
    ensures BoardInv(Publish(b, c, x))
  {
    var b1 := Publish(b, c, x);
    forall k | 0 <= k < |b1.chans| ensures ChanOk(b1, k) {
      assert ChanOk(b, k);
      assert c in b.listeners ==> ListOk(b, c);
    }
    forall d | d in b1.listeners ensures ListOk(b1, d) { assert ListOk(b, d); }
  }

  lemma SubscribeKeeps(b: Board, c: Id)
    requires BoardInv(b)
    ensures BoardInv(Subscribe(b, c))
  {
    var b1 := Subscribe(b, c);
    assert "" in b.listeners ==> ListOk(b, "");
    assert c in b.listeners ==> ListOk(b, c);
    forall k | 0 <= k < |b1.chans| ensures ChanOk(b1, k) { assert k < |b.chans| ==> ChanOk(b, k); }
    forall d | d in b1.listeners ensures ListOk(b1, d) {
      assert d in b.listeners ==> ListOk(b, d);
      assert d == c ==> |b.chans| in b1.listeners[c];
    }
  }

  lemma UnsubscribeKeeps(b: Board, k: nat)
    requires BoardInv(b)
    ensures BoardInv(Unsubscribe(b, k))
  {
    var b1 := Unsubscribe(b, k);
    forall j | 0 <= j < |b1.chans| ensures ChanOk(b1, j) { assert ChanOk(b, j); }
    forall d | d in b1.listeners ensures ListOk(b1, d) { assert ListOk(b, d); }
  }

  lemma MarkKeeps(b: Board, c: Id, st: Status, cached: bool)
    requires BoardInv(b)
    ensures BoardInv(Mark(b, c, st, cached))
  {
    var b1 := b.(status := b.status[c := st]);
    SameListeners(b, b1);
    PublishKeeps(b1, c, Snapshot(cached, st));
  }

  lemma SameListeners(b: Board, b1: Board)
    requires BoardInv(b) && b1.listeners == b.listeners && b1.chans == b.chans
    ensures BoardInv(b1)
  {
    forall k | 0 <= k < |b1.chans| ensures ChanOk(b1, k) { assert ChanOk(b, k); }
    forall d | d in b1.listeners ensures ListOk(b1, d) { assert ListOk(b, d); }
  }

  lemma ForgetKeeps(b: Board, c: Id)
    requires BoardInv(b)
    ensures BoardInv(Forget(b, c))
  {
    if c in b.status {
      var x := Snapshot(false, Status(false, false));
      PublishKeeps(b, c, x);
      SameListeners(Publish(b, c, x), Forget(b, c));
    }
  }

  lemma {:induction false} ForgetAllKeeps(b: Board, order: seq<Id>)
    requires BoardInv(b)
    ensures BoardInv(ForgetAll(b, order))
  {
    if order != [] {
      ForgetAllKeeps(b, order[..|order| - 1]);
      ForgetKeeps(ForgetAll(b, order[..|order| - 1]), order[|order| - 1]);
    }
  }

  predicate DistinctIds(order: seq<Id>) { forall i, j | 0 <= i < j < |order| :: order[i] != order[j] }

  // Every channel of the clusters visited so far has been closed once, the others not at all.
  lemma {:induction false} ShutClustersAt(b: Board, order: seq<Id>, k: nat)
    requires BoardInv(b) && k < |b.chans| && DistinctIds(order)
    ensures |ShutClusters(b, order)| == |b.chans|
    ensures ShutClusters(b, order)[k]
         == if b.chans[k].open && b.chans[k].cluster in order then Shut(b.chans[k]) else b.chans[k]
  {
    assert ChanOk(b, k);
    if order != [] {
      var n := |order| - 1;
      ShutClustersAt(b, order[..n], k);
      assert order == order[..n] + [order[n]];
      assert order[n] in b.listeners ==> ListOk(b, order[n]);
    }
  }

  lemma StopKeeps(b: Board, order: seq<Id>)
    requires BoardInv(b) && DistinctIds(order) && forall c :: c in order <==> c in b.listeners
    ensures BoardInv(StopBoard(b, order))
  {
    var b1 := StopBoard(b, order);
    if |b.chans| > 0 { ShutClustersAt(b, order, 0); } else { NoChans(b, order); }
    forall k | 0 <= k < |b1.chans| ensures ChanOk(b1, k) {
      ShutClustersAt(b, order, k);
      assert ChanOk(b, k);
    }
  }

  lemma {:induction false} NoChans(b: Board, order: seq<Id>)
    ensures |ShutClusters(b, order)| == |b.chans|
  {
    if order != [] { NoChans(b, order[..|order| - 1]); }
  }

  lemma ReceiveKeeps(b: Board, k: nat)
    requires BoardInv(b)
    ensures BoardInv(Receive(b, k))
  {
    var b1 := Receive(b, k);
    forall j | 0 <= j < |b1.chans| ensures ChanOk(b1, j) { assert ChanOk(b, j); }
    forall d | d in b1.listeners ensures ListOk(b1, d) { assert ListOk(b, d); }
  }

  // Reading a snapshot leaves a blank status behind for a cluster that had none.
  function Peek(b: Board, c: Id): Board { b.(status := b.status[c := Known(b, c)]) }

  /* ---- runs ---- */

  datatype State = State(pool: Pool, board: Board)

  datatype Action =
    | Hit(c: Id)                                   // connect finds a live cached client
    | Dialed(c: Id)                                // connect installs a new client
    | NewSession(h: nat)                           // newSession, some time after its connect
    | SessionNow(c: Id, reuse: bool)               // connect and newSession in one step
    | CloseHandle(i: nat)
    | Evict(c: Id)                                 // also what the OnClosed hook does
    | Sweep(order: seq<Id>)
    | Stop(order: seq<Id>, clusters: seq<Id>)      // the orders in which the two maps are visited
    | SubscribeStatus(c: Id)
    | UnsubscribeStatus(k: nat)
    | Record(c: Id, st: Status)
    | StatusSnapshot(c: Id)
    | Take(k: nat)

  const START := State(NO_CLIENTS, NO_LISTENERS)

  predicate Visits(order: seq<Id>, keys: set<Id>) {
    DistinctIds(order) && (forall c | c in order :: c in keys) && forall c | c in keys :: c in order
  }

  predicate Can(s: State, a: Action) {
    match a
    case Sweep(order) => DistinctIds(order) && forall i | 0 <= i < |order| :: order[i] in s.pool.cache
    case Stop(order, clusters) => Visits(order, s.pool.cache.Keys) && Visits(clusters, s.board.listeners.Keys)
    case _ => true
  }

  function Connected(p: Pool, c: Id, reuse: bool): Pool { if reuse && c in p.cache then Lookup(p, c) else Dial(p, c) }

  function StepPool(p: Pool, a: Action): Pool {
    match a
    case Hit(c) => Lookup(p, c)
    case Dialed(c) => Dial(p, c)
    case NewSession(h) => OpenSession(p, h)
    case SessionNow(c, reuse) => OpenSession(Connected(p, c, reuse), |p.holds|)
    case CloseHandle(i) => CloseSession(p, i)
    case Evict(c) => Drop(p, c)
    case Sweep(order) => DropAll(p, order)
    case Stop(order, _) => DropAll(p, order)
    case _ => p
  }

  function StepBoard(b: Board, cache: map<Id, nat>, a: Action): Board {
    match a
    case Evict(c) => Forget(b, c)
    case Sweep(order) => ForgetAll(b, order)
    case Stop(_, clusters) => StopBoard(b, clusters)
    case SubscribeStatus(c) => Subscribe(b, c)
    case UnsubscribeStatus(k) => Unsubscribe(b, k)
    case Record(c, st) => Mark(b, c, st, c in cache)
    case StatusSnapshot(c) => Peek(b, c)
    case Take(k) => Receive(b, k)
    case _ => b
  }

  function Step(s: State, a: Action): State {
    if Can(s, a) then State(StepPool(s.pool, a), StepBoard(s.board, s.pool.cache, a)) else s
  }

  function After(actions: seq<Action>): State
    decreases |actions|
  {
    if actions == [] then START else Step(After(actions[..|actions| - 1]), actions[|actions| - 1])
  }

  lemma StepPoolKeeps(p: Pool, a: Action)
    requires PoolInv(p)
    ensures PoolInv(StepPool(p, a))
  {
    match a
    case Hit(c) => LookupKeeps(p, c);
    case Dialed(c) => DialKeeps(p, c);
    case NewSession(h) => OpenKeeps(p, h);
    case SessionNow(c, reuse) =>
      if reuse && c in p.cache { LookupKeeps(p, c); } else { DialKeeps(p, c); }
      OpenKeeps(Connected(p, c, reuse), |p.holds|);
    case CloseHandle(i) => CloseKeeps(p, i);
    case Evict(c) => DropKeeps(p, c);
    case Sweep(order) => DropAllKeeps(p, order);
    case Stop(order, _) => DropAllKeeps(p, order);
    case _ =>
  }

  lemma StepBoardKeeps(s: State, a: Action)
    requires BoardInv(s.board) && Can(s, a)
    ensures BoardInv(StepBoard(s.board, s.pool.cache, a))
  {
    match a
    case Evict(c) => ForgetKeeps(s.board, c);
    case Sweep(order) => ForgetAllKeeps(s.board, order);
    case Stop(_, clusters) => StopKeeps(s.board, clusters);
    case SubscribeStatus(c) => SubscribeKeeps(s.board, c);
    case UnsubscribeStatus(k) => UnsubscribeKeeps(s.board, k);
    case Record(c, st) => MarkKeeps(s.board, c, st, c in s.pool.cache);
    case StatusSnapshot(c) => SameListeners(s.board, Peek(s.board, c));
    case Take(k) => ReceiveKeeps(s.board, k);
    case _ =>
  }

  lemma {:induction false} RunsKeepInv(actions: seq<Action>)
    ensures PoolInv(After(actions).pool) && BoardInv(After(actions).board)
  {
    if actions != [] {
      var s, a := After(actions[..|actions| - 1]), actions[|actions| - 1];
      RunsKeepInv(actions[..|actions| - 1]);
      StepPoolKeeps(s.pool, a);
      if Can(s, a) { StepBoardKeeps(s, a); }
    }
  }

  // In every interleaving each status channel is closed at most once and never sent to afterwards (either
  // would panic), and the open channels are exactly those in the listener table.
  lemma ChannelsAreSafe(actions: seq<Action>, k: nat)
    requires k < |After(actions).board.chans|
    ensures var b := After(actions).board; var ch := b.chans[k];
            ch.closes <= 1 && ch.strays == 0 && |ch.buffer| <= BUFFER && (ch.open <==> k in Listeners(b, ch.cluster))
  {
    RunsKeepInv(actions);
    assert ChanOk(After(actions).board, k);
  }

  // A session that passes its check holds the cached client exactly if the generation did not move
  // between obtaining the client and opening the session.
  lemma PassingSessionHoldsCached(actions: seq<Action>, i: nat)
    requires i < |After(actions).pool.sessions| && Passes(After(actions).pool, After(actions).pool.sessions[i])
    ensures var p := After(actions).pool; var s := p.sessions[i];
            s.hold < |p.holds| && (Cached(p, s.cluster, s.client) <==> s.gen == p.holds[s.hold].gen)
  {
    RunsKeepInv(actions);
    var p := After(actions).pool;
    assert SessionOk(p, p.sessions[i]);
    assert HoldOk(p, p.holds[p.sessions[i].hold]);
  }

  // The gap is real: an eviction between the two lets a session pass with a client that is gone.
  lemma StaleSessionCanPass(c: Id)
    ensures var p := After([Dialed(c), Evict(c), NewSession(0)]).pool;
            |p.sessions| == 1 && Passes(p, p.sessions[0]) && !Cached(p, c, p.sessions[0].client)
  {
    var a1, a2, a3 := Dialed(c), Evict(c), NewSession(0);
    assert [a1, a2, a3][..2] == [a1, a2] && [a1, a2][..1] == [a1] && [a1][..0] == [];
    assert After([a1]) == Step(After([]), a1) && After([]) == START;
    var p1 := After([a1]).pool;
    assert p1 == Dial(NO_CLIENTS, c) && p1.holds == [Hold(c, 0, 0)];
    var p2 := After([a1, a2]).pool;
    assert p2 == Drop(p1, c) && c !in p2.cache;
    assert After([a1, a2, a3]).pool == OpenSession(p2, 0);
  }

  predicate Prompt(p: Pool, s: Session) { s.hold < |p.holds| && s.gen == p.holds[s.hold].gen }

  predicate AllPrompt(p: Pool) { forall i | 0 <= i < |p.sessions| :: Prompt(p, p.sessions[i]) }

  lemma {:induction false} DropAllFrames(p: Pool, order: seq<Id>)
    ensures DropAll(p, order).holds == p.holds && DropAll(p, order).sessions == p.sessions
  {
    if order != [] { DropAllFrames(p, order[..|order| - 1]); }
  }

  lemma StepPrompt(p: Pool, a: Action)
    requires AllPrompt(p) && !a.NewSession?
    ensures AllPrompt(StepPool(p, a))
  {
    var q := StepPool(p, a);
    if a.Sweep? || a.Stop? { DropAllFrames(p, a.order); }
    forall i | 0 <= i < |q.sessions|
      ensures Prompt(q, q.sessions[i])
    {
      assert i < |p.sessions| ==> Prompt(p, p.sessions[i]);
    }
  }

  predicate Unbroken(actions: seq<Action>) { forall i | 0 <= i < |actions| :: !actions[i].NewSession? }

  lemma {:induction false} UnbrokenIsPrompt(actions: seq<Action>)
    requires Unbroken(actions)
    ensures AllPrompt(After(actions).pool)
  {
    if actions != [] {
      UnbrokenIsPrompt(actions[..|actions| - 1]);
      StepPrompt(After(actions[..|actions| - 1]).pool, actions[|actions| - 1]);
    }
  }

  // When no step falls between connect and newSession, a session that passes always holds the client that
  // is cached for its cluster.
  lemma AtomicSessionsHoldCached(actions: seq<Action>, i: nat)
    requires Unbroken(actions)
    requires i < |After(actions).pool.sessions| && Passes(After(actions).pool, After(actions).pool.sessions[i])
    ensures var p := After(actions).pool; Cached(p, p.sessions[i].cluster, p.sessions[i].client)
  {
    UnbrokenIsPrompt(actions);
    assert Prompt(After(actions).pool, After(actions).pool.sessions[i]);
    PassingSessionHoldsCached(actions, i);
  }

  /* ---- nothing comes back ---- */

  // q is p some steps later: generations have not shrunk, and no session has changed or been reopened.
  ghost predicate Later(p: Pool, q: Pool) {
    && (forall c :: Gen(p, c) <= Gen(q, c))
    && |p.sessions| <= |q.sessions|
    && forall i | 0 <= i < |p.sessions| ::
         q.sessions[i].(closed := false) == p.sessions[i].(closed := false)
             && (p.sessions[i].closed ==> q.sessions[i].closed)
  }

  lemma LaterTrans(p: Pool, q: Pool, r: Pool)
    requires Later(p, q) && Later(q, r)
    ensures Later(p, r)
  {
    forall c ensures Gen(p, c) <= Gen(r, c) { assert Gen(p, c) <= Gen(q, c) <= Gen(r, c); }
  }

  lemma {:induction false} DropAllLater(p: Pool, order: seq<Id>)
    ensures Later(p, DropAll(p, order))
  {
    if order != [] {
      var m := DropAll(p, order[..|order| - 1]);
      DropAllLater(p, order[..|order| - 1]);
      assert Later(m, Drop(m, order[|order| - 1]));
      LaterTrans(p, m, Drop(m, order[|order| - 1]));
    }
  }

  lemma StepLater(p: Pool, a: Action)
    ensures Later(p, StepPool(p, a))
  {
    if a.Sweep? || a.Stop? { DropAllLater(p, a.order); }
  }

  lemma {:induction false} RunLater(actions: seq<Action>, more: seq<Action>)
    ensures Later(After(actions).pool, After(actions + more).pool)
    decreases |more|
  {
    if more == [] {
      assert actions + more == actions;
    } else {
      var n := |more| - 1;
      RunLater(actions, more[..n]);
      assert (actions + more)[..|actions + more| - 1] == actions + more[..n];
      StepLater(After(actions + more[..n]).pool, more[n]);
      LaterTrans(After(actions).pool, After(actions + more[..n]).pool, After(actions + more).pool);
    }
  }

  // A session that fails its check fails it for ever.
  lemma InvalidStaysInvalid(actions: seq<Action>, more: seq<Action>, i: nat)
    requires i < |After(actions).pool.sessions| && !Passes(After(actions).pool, After(actions).pool.sessions[i])
    ensures i < |After(actions + more).pool.sessions|
    ensures !Passes(After(actions + more).pool, After(actions + more).pool.sessions[i])
  {
    RunsKeepInv(actions);
    RunLater(actions, more);
    var p, q := After(actions).pool, After(actions + more).pool;
    assert SessionOk(p, p.sessions[i]);
    assert Gen(p, p.sessions[i].cluster) <= Gen(q, p.sessions[i].cluster);
  }

  lemma {:induction false} DropAllDrops(p: Pool, order: seq<Id>, c: Id)
    ensures c in DropAll(p, order).cache <==> c in p.cache && c !in order
  {
    if order != [] {
      var n := |order| - 1;
      DropAllDrops(p, order[..n], c);
      assert order == order[..n] + [order[n]];
    }
  }

  // Stop leaves no open channel, and no session that passes except one whose generation had already moved
  // when it was opened.
  lemma StopEndsEverything(actions: seq<Action>, order: seq<Id>, clusters: seq<Id>)
    requires Can(After(actions), Stop(order, clusters))
    ensures var s := After(actions + [Stop(order, clusters)]);
            && (forall k | 0 <= k < |s.board.chans| :: !s.board.chans[k].open)
            && forall i | 0 <= i < |s.pool.sessions| ::
                 Passes(s.pool, s.pool.sessions[i]) ==> !Prompt(s.pool, s.pool.sessions[i])
  {
    var all := actions + [Stop(order, clusters)];
    var s := After(all);
    assert all[..|actions|] == actions;
    forall k | 0 <= k < |s.board.chans| ensures !s.board.chans[k].open { ChannelsAreSafe(all, k); }
    forall i | 0 <= i < |s.pool.sessions| && Passes(s.pool, s.pool.sessions[i])
      ensures !Prompt(s.pool, s.pool.sessions[i])
    {
      DropAllDrops(After(actions).pool, order, s.pool.sessions[i].cluster);
      PassingSessionHoldsCached(all, i);
    }
  }

  // In particular none passes when no step fell between connect and newSession.
  lemma StopEndsAtomicSessions(actions: seq<Action>, order: seq<Id>, clusters: seq<Id>, i: nat)
    requires Unbroken(actions) && Can(After(actions), Stop(order, clusters))
    requires i < |After(actions + [Stop(order, clusters)]).pool.sessions|
    ensures var p := After(actions + [Stop(order, clusters)]).pool; !Passes(p, p.sessions[i])
  {
    var all := actions + [Stop(order, clusters)];
    StopEndsEverything(actions, order, clusters);
    UnbrokenIsPrompt(all);
    assert Prompt(After(all).pool, After(all).pool.sessions[i]);
  }

  /* ---- the manager ---- */

  method OrderKeys(keys: set<Id>) returns (order: seq<Id>)
    ensures Visits(order, keys)
  {
    order := [];
    var todo := keys;
    while todo != {}
      invariant todo <= keys && DistinctIds(order)
      invariant forall c | c in order :: c in keys - todo
      invariant forall c | c in keys - todo :: c in order
      decreases |todo|
    {
      var c :| c in todo;
      assert c !in order;
      order := order + [c];
      todo := todo - {c};
    }
  }

  // Channels are numbered in the order they were made and live outside the listener table, as they do for
  // the goroutines that receive from them.
  class Manager {
    var cache: map<Id, nat>
    var sessionGens: map<Id, nat>
    var dialed: nat
    var status: map<Id, Status>
    var statusListeners: map<Id, set<nat>>
    var chans: seq<Chan>
    var holds: seq<Hold>
    var sessions: seq<Session>

    function Clients(): Pool
      reads this
    {
      Pool(cache, sessionGens, dialed, holds, sessions)
    }

    function Statuses(): Board
      reads this
    {
      Board(status, statusListeners, chans)
    }

    function Now(): State
      reads this
    {
      State(Clients(), Statuses())
    }

    constructor ()
      ensures Now() == START
    {
      cache, sessionGens, dialed, status, statusListeners, chans := map[], map[], 0, map[], map[], [];
      holds, sessions := [], [];
    }

    function SessionGeneration(c: Id): (g: nat)
      reads this
      ensures g == Gen(Clients(), c)
    {
      if c in sessionGens then sessionGens[c] else 0
    }

    method BumpSessionGeneration(c: Id)
      modifies this`sessionGens
      ensures Clients() == Bump(old(Clients()), c)
    {
      sessionGens := sessionGens[c := SessionGeneration(c) + 1];
    }

    // connect: a cached client that was used recently is reused if alive and evicted if dead; otherwise a
    // new one is dialed and replaces whatever is cached.
    method Connect(c: Id, idle: bool, alive: bool, dialFails: bool) returns (ok: bool, h: nat)
      modifies this
      ensures var s := if c in old(cache) && !idle && !alive then Step(old(Now()), Evict(c)) else old(Now());
              if c in old(cache) && !idle && alive then ok && Now() == Step(s, Hit(c))
              else if dialFails then !ok && Now() == s
              else ok && Now() == Step(s, Dialed(c))
      ensures ok ==> h < |holds| && holds[h].cluster == c && Cached(Clients(), c, holds[h].client)
    {
      ok, h := true, 0;
      if c in cache && !idle {
        if alive {
          h := |holds|;
          holds := holds + [Hold(c, cache[c], SessionGeneration(c))];
          return;
        }
        EvictCluster(c);
      }
      if dialFails { return false, 0; }
      var client := dialed;
      dialed := dialed + 1;
      if c in cache { BumpSessionGeneration(c); }
      cache := cache[c := client];
      h := |holds|;
      holds := holds + [Hold(c, client, SessionGeneration(c))];
    }

    // newSession
    method Open(h: nat) returns (i: nat)
      requires h < |holds|
      modifies this`sessions
      ensures Now() == Step(old(Now()), NewSession(h)) && i == |old(sessions)|
      ensures i < |sessions| && Passes(Clients(), sessions[i])
    {
      i := |sessions|;
      sessions := sessions
        + [Session(holds[h].cluster, holds[h].client, SessionGeneration(holds[h].cluster), false, h)];
    }

    method EnsureValid(i: nat) returns (ok: bool)
      requires i < |sessions|
      ensures ok == Passes(Clients(), sessions[i])
    {
      if sessions[i].closed { return false; }
      ok := SessionGeneration(sessions[i].cluster) == sessions[i].gen;
    }

    method PublishStatus(c: Id, x: Snapshot)
      modifies this`chans
      ensures Statuses() == Publish(old(Statuses()), c, x)
    {
      if c !in statusListeners || |statusListeners[c]| == 0 {
        assert chans == SendTo(chans, Listeners(Statuses(), c), x);
        return;
      }
      var todo := statusListeners[c];
      ghost var all := todo;
      assert chans == SendTo(chans, {}, x);
      while todo != {}
        invariant todo <= all && statusListeners == old(statusListeners)
        invariant chans == SendTo(old(chans), all - todo, x)
        decreases |todo|
      {
        var k :| k in todo;
        todo := todo - {k};
        if k < |chans| { chans := chans[k := Send(chans[k], x)]; }
      }
      assert all - {} == all;
    }

    method EvictCluster(c: Id)
      modifies this
      ensures Now() == Step(old(Now()), Evict(c))
    {
      cache := cache - {c};
      BumpSessionGeneration(c);
      if c in status {
        PublishStatus(c, Snapshot(false, Status(false, false)));
        status := status - {c};
      }
    }

    // The expired clusters are those whose client is idle too long or dead.
    method SweepExpired(expired: set<Id>) returns (ghost order: seq<Id>)
      requires expired <= cache.Keys
      modifies this
      ensures Visits(order, expired) && Now() == Step(old(Now()), Sweep(order))
    {
      var ids := OrderKeys(expired);
      order := ids;
      for i := 0 to |ids|
        invariant Clients() == DropAll(old(Clients()), ids[..i]) && Statuses() == ForgetAll(old(Statuses()), ids[..i])
      {
        assert ids[..i + 1][..i] == ids[..i];
        EvictCluster(ids[i]);
      }
      assert ids[..|ids|] == ids;
    }

    method CloseListeners(targets: set<nat>)
      modifies this`chans
      ensures chans == ShutAll(old(chans), targets)
    {
      var todo := targets;
      assert chans == ShutAll(chans, {});
      while todo != {}
        invariant todo <= targets && chans == ShutAll(old(chans), targets - todo)
        decreases |todo|
      {
        var k :| k in todo;
        todo := todo - {k};
        if k < |chans| { chans := chans[k := Shut(chans[k])]; }
      }
      assert targets - {} == targets;
    }

    method StopAll() returns (ghost order: seq<Id>, ghost clusters: seq<Id>)
      modifies this
      ensures Can(old(Now()), Stop(order, clusters)) && Now() == Step(old(Now()), Stop(order, clusters))
    {
      var ids := OrderKeys(cache.Keys);
      var listening := OrderKeys(statusListeners.Keys);
      order, clusters := ids, listening;
      DropClients(ids);
      CloseAllListeners(listening);
      statusListeners := map[];
    }

    method DropClients(ids: seq<Id>)
      modifies this`cache, this`sessionGens
      ensures Clients() == DropAll(old(Clients()), ids)
    {
      for i := 0 to |ids|
        invariant Clients() == DropAll(old(Clients()), ids[..i])
      {
        assert ids[..i + 1][..i] == ids[..i];
        cache := cache - {ids[i]};
        BumpSessionGeneration(ids[i]);
      }
      assert ids[..|ids|] == ids;
    }

    method CloseAllListeners(clusters: seq<Id>)
      requires forall i | 0 <= i < |clusters| :: clusters[i] in statusListeners
      modifies this`chans
      ensures chans == ShutClusters(old(Statuses()), clusters)
    {
      for i := 0 to |clusters|
        invariant chans == ShutClusters(old(Statuses()), clusters[..i])
      {
        assert clusters[..i + 1][..i] == clusters[..i];
        CloseListeners(statusListeners[clusters[i]]);
      }
      assert clusters[..|clusters|] == clusters;
    }

    method Subscribed(c: Id) returns (k: nat)
      modifies this
      ensures Now() == Step(old(Now()), SubscribeStatus(c)) && k == |old(chans)| < |chans|
      ensures chans[k].open <==> c != ""
    {
      k := |chans|;
      if c == "" {
        chans := chans + [Chan(c, false, 1, 0, [])];
        return;
      }
      chans := chans + [Chan(c, true, 0, 0, [])];
      if c !in statusListeners { statusListeners := statusListeners[c := {}]; }
      statusListeners := statusListeners[c := statusListeners[c] + {k}];
      status := status[c := Known(Statuses(), c)];
    }

    method Unsubscribed(k: nat)
      requires k < |chans|
      modifies this
      ensures Now() == Step(old(Now()), UnsubscribeStatus(k))
    {
      var c := chans[k].cluster;
      if c == "" || c !in statusListeners || k !in statusListeners[c] { return; }
      var rest := statusListeners[c] - {k};
      statusListeners := statusListeners[c := rest];
      chans := chans[k := Shut(chans[k])];
      if |rest| == 0 { statusListeners := statusListeners - {c}; }
    }

    method RecordStatus(c: Id, st: Status)
      modifies this
      ensures Now() == Step(old(Now()), Record(c, st))
    {
      status := status[c := st];
      PublishStatus(c, Snapshot(c in cache, st));
    }
  }
}
