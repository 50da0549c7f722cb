/** The live-tail multiplexer: viewers of one key share one JetStream subscription. */
module LiveMux {
  import opened Wrappers

  // Every constructor of `Action` is one section that runs under the locks of the source (or one call that
  // leaves them, such as Unsubscribe), so a sequence of actions is one interleaving of any number of
  // concurrent attach and unsubscribe calls. `Inv` is what every interleaving keeps; the theorems are stated
  // over all runs. The class `SubMux` holds the same state in objects and proves each locked section against
  // its step function.

  // fromSeq is part of the key; 0 means "deliver new".
  datatype MuxKey = MuxKey(cluster: string, stream: string, filter: string, fromSeq: nat)

  type Viewer = nat
  type SubId = nat

  // `leader` is bookkeeping: the viewer whose attach call runs Subscribe.
  datatype Shared = Shared(
    key: MuxKey, viewers: set<Viewer>, sub: Option<SubId>, failed: bool, started: bool, ready: bool,
    leader: Viewer)

  // Where the attach call (or the closure it returned) of one viewer stands.
  datatype Phase =
    | Subscribing(ss: nat)          // outside the locks, Subscribe is running
    | Recorded(ss: nat, ok: bool)   // result stored, `ready` not closed yet
    | Waiting(ss: nat)              // blocked on `ready`
    | Failing(ss: nat)              // saw the error, detach still to run
    | Attached(ss: nat)             // attach returned an unsubscribe closure
    | Left(ss: nat, ok: bool)       // detached at least once; ok when a closure exists

  // owner[i] is the shared subscription whose Subscribe call returned subscription i, attempts lists
  // the shared subscriptions in the order of their Subscribe calls, keyOf the key each viewer asked for.
  datatype State = State(
    subs: map<MuxKey, nat>, heap: seq<Shared>, phase: map<Viewer, Phase>, keyOf: map<Viewer, MuxKey>,
    attempts: seq<nat>, owner: seq<nat>, pending: multiset<SubId>, closed: multiset<SubId>)

  datatype Action =
    | Join(key: MuxKey, v: Viewer)
    | Record(v: Viewer, ok: bool)
    | Publish(v: Viewer)
    | Wake(v: Viewer)
    | Detach(v: Viewer)
    | Unsubscribe(sub: SubId)

  const NO_VIEWERS := State(map[], [], map[], map[], [], [], multiset{}, multiset{})

  predicate CanJoin(s: State, key: MuxKey, v: Viewer) { v !in s.phase && (key in s.subs ==> s.subs[key] < |s.heap|) }

  predicate CanRecord(s: State, v: Viewer) { v in s.phase && s.phase[v].Subscribing? && s.phase[v].ss < |s.heap| }

  predicate CanPublish(s: State, v: Viewer) { v in s.phase && s.phase[v].Recorded? && s.phase[v].ss < |s.heap| }

  predicate CanWake(s: State, v: Viewer) {
    v in s.phase && s.phase[v].Waiting? && s.phase[v].ss < |s.heap| && s.heap[s.phase[v].ss].ready
  }

  predicate CanDetach(s: State, v: Viewer) {
    && v in s.phase && v in s.keyOf
    && (s.phase[v].Failing? || s.phase[v].Attached? || s.phase[v].Left?)
    && (s.keyOf[v] in s.subs ==> s.subs[s.keyOf[v]] < |s.heap|)
  }

  predicate Enabled(s: State, a: Action) {
    match a
    case Join(key, v) => CanJoin(s, key, v)
    case Record(v, _) => CanRecord(s, v)
    case Publish(v) => CanPublish(s, v)
    case Wake(v) => CanWake(s, v)
    case Detach(v) => CanDetach(s, v)
    case Unsubscribe(i) => i in s.pending
  }

  function JoinStep(s: State, key: MuxKey, v: Viewer): State
    requires CanJoin(s, key, v)
  {
    var isNew := key !in s.subs;
    var id := if isNew then |s.heap| else s.subs[key];
    var sh := if isNew then Shared(key, {}, None, false, false, false, v) else s.heap[id];
    var sh' := sh.(viewers := sh.viewers + {v}, started := true);
    s.(subs := s.subs[key := id],
       heap := if isNew then s.heap + [sh'] else s.heap[id := sh'],
       phase := s.phase[v := if sh.started then Waiting(id) else Subscribing(id)],
       keyOf := s.keyOf[v := key],
       attempts := if sh.started then s.attempts else s.attempts + [id])
  }

  function RecordStep(s: State, v: Viewer, ok: bool): State
    requires CanRecord(s, v)
  {
    var id := s.phase[v].ss;
    s.(heap := s.heap[id := s.heap[id].(sub := if ok then Some(|s.owner|) else None, failed := !ok)],
       phase := s.phase[v := Recorded(id, ok)],
       owner := if ok then s.owner + [id] else s.owner)
  }

  function PublishStep(s: State, v: Viewer): State
    requires CanPublish(s, v)
  {
    var id := s.phase[v].ss;
    s.(heap := s.heap[id := s.heap[id].(ready := true)],
       phase := s.phase[v := if s.phase[v].ok then Attached(id) else Failing(id)])
  }

  function WakeStep(s: State, v: Viewer): State
    requires CanWake(s, v)
  {
    var id := s.phase[v].ss;
    s.(phase := s.phase[v := if s.heap[id].failed then Failing(id) else Attached(id)])
  }

  // The lookup is by key, so a late second call may meet a newer shared subscription.
  function DetachStep(s: State, v: Viewer): State
    requires CanDetach(s, v)
  {
    var key := s.keyOf[v];
    var left := s.phase[v := Left(s.phase[v].ss, if s.phase[v].Left? then s.phase[v].ok else s.phase[v].Attached?)];
    if key !in s.subs then
      s.(phase := left)
    else
      var id := s.subs[key];
      var rest := s.heap[id].viewers - {v};
      if rest != {} then
        s.(phase := left, heap := s.heap[id := s.heap[id].(viewers := rest)])
      else
        s.(phase := left,
           heap := s.heap[id := s.heap[id].(viewers := {}, sub := None)],
           subs := map k | k in s.subs && k != key :: s.subs[k],
           pending := match s.heap[id].sub case Some(i) => s.pending + multiset{i} case None => s.pending)
  }

  function Next(s: State, a: Action): State
    requires Enabled(s, a)
  {
    match a
    case Join(key, v) => JoinStep(s, key, v)
    case Record(v, ok) => RecordStep(s, v, ok)
    case Publish(v) => PublishStep(s, v)
    case Wake(v) => WakeStep(s, v)
    case Detach(v) => DetachStep(s, v)
    case Unsubscribe(i) => s.(pending := s.pending - multiset{i}, closed := s.closed + multiset{i})
  }

  function After(acts: seq<Action>): Option<State>
    decreases |acts|
  {
    if acts == [] then Some(NO_VIEWERS)
    else
      match After(acts[..|acts| - 1])
      case Some(p) => if Enabled(p, acts[|acts| - 1]) then Some(Next(p, acts[|acts| - 1])) else None
      case None => None
  }

  // A run is any sequence of actions each of which is enabled where it happens.
  predicate Run(acts: seq<Action>, s: State) { After(acts) == Some(s) }

  /* ---- the invariant, one entity at a time ---- */

  ghost predicate KeyOk(s: State, k: MuxKey)
    requires k in s.subs
  {
    s.subs[k] < |s.heap| && s.heap[s.subs[k]].key == k && s.heap[s.subs[k]].viewers != {}
  }

  ghost predicate SharedOk(s: State, id: nat)
    requires id < |s.heap|
  {
    var sh := s.heap[id];
    && sh.started
    && (sh.viewers != {} ==> sh.key in s.subs && s.subs[sh.key] == id)
    && (sh.viewers == {} ==> sh.ready && sh.sub.None?)
    && (sh.viewers != {} && sh.ready ==> (sh.failed <==> sh.sub.None?))
    && (!sh.ready ==>
          && sh.leader in s.phase
          && (s.phase[sh.leader] == Subscribing(id) || s.phase[sh.leader] == Recorded(id, !sh.failed)))
    && (sh.sub.Some? ==> !sh.failed && sh.sub.value < |s.owner| && s.owner[sh.sub.value] == id)
  }

  // The viewer set of a shared subscription holds exactly the viewers that joined it and have not left.
  ghost predicate MemberOk(s: State, id: nat, v: Viewer)
    requires id < |s.heap|
  {
    v in s.heap[id].viewers <==> v in s.phase && s.phase[v].ss == id && !s.phase[v].Left?
  }

  ghost predicate PhaseOk(s: State, v: Viewer)
    requires v in s.phase
  {
    var p := s.phase[v];
    && p.ss < |s.heap|
    && v in s.keyOf
    && s.heap[p.ss].key == s.keyOf[v]
    && match p
       case Subscribing(id) => v == s.heap[id].leader && !s.heap[id].ready && s.heap[id].sub.None?
           && !s.heap[id].failed && id !in s.owner
       case Recorded(id, ok) => v == s.heap[id].leader && !s.heap[id].ready && ok == !s.heap[id].failed
           && ok == s.heap[id].sub.Some?
       case Waiting(id) => true
       case Failing(id) => s.heap[id].ready && s.heap[id].failed
       case Attached(id) => s.heap[id].ready && !s.heap[id].failed
       case Left(id, ok) => s.heap[id].ready && ok == !s.heap[id].failed
  }

  function Held(s: State, i: SubId): nat
    requires i < |s.owner| && s.owner[i] < |s.heap|
  {
    if s.heap[s.owner[i]].sub == Some(i) then 1 else 0
  }

  // A subscription once opened is held by its shared subscription, or handed to one Unsubscribe
  // call that has not run, or unsubscribed: exactly one of the three, exactly once.
  ghost predicate SubOk(s: State, i: SubId)
    requires i < |s.owner|
  {
    && s.owner[i] < |s.heap|
    && !s.heap[s.owner[i]].failed
    && Held(s, i) + s.pending[i] + s.closed[i] == 1
    && forall j | 0 <= j < i :: s.owner[j] != s.owner[i]
  }

  ghost predicate KeysInv(s: State) { forall k <- s.subs :: KeyOk(s, k) }

  ghost predicate HeapInv(s: State) { forall id | 0 <= id < |s.heap| :: SharedOk(s, id) }

  ghost predicate MembersInv(s: State) { forall id, v | 0 <= id < |s.heap| :: MemberOk(s, id, v) }

  ghost predicate PhasesInv(s: State) { forall v <- s.phase :: PhaseOk(s, v) }

  ghost predicate SubsInv(s: State) {
    && (forall i | 0 <= i < |s.owner| :: SubOk(s, i))
    && (forall i | i >= |s.owner| :: s.pending[i] == 0 && s.closed[i] == 0)
  }

  // Subscribe ran once for each shared subscription, in the order they were created.
  ghost predicate AttemptsInv(s: State) {
    |s.attempts| == |s.heap| && forall id | 0 <= id < |s.attempts| :: s.attempts[id] == id
  }

  ghost predicate Inv(s: State) {
    KeysInv(s) && HeapInv(s) && MembersInv(s) && PhasesInv(s) && SubsInv(s) && AttemptsInv(s)
  }

  lemma JoinExistingKeepsInv(s: State, key: MuxKey, v: Viewer)
    requires Inv(s) && CanJoin(s, key, v) && key in s.subs
    ensures Inv(JoinStep(s, key, v))
  {
    var s' := JoinStep(s, key, v);
    var id := s.subs[key];
    assert KeyOk(s, key) && SharedOk(s, id);
    assert s'.heap[id] == s.heap[id].(viewers := s.heap[id].viewers + {v});
    forall k <- s'.subs ensures KeyOk(s', k) { assert KeyOk(s, k); }
    forall i | 0 <= i < |s'.heap| ensures SharedOk(s', i) { assert SharedOk(s, i); }
    forall i, w | 0 <= i < |s'.heap| ensures MemberOk(s', i, w) { assert MemberOk(s, i, w); }
    forall w <- s'.phase ensures PhaseOk(s', w) { if w != v { assert PhaseOk(s, w); } }
    forall i | 0 <= i < |s'.owner| ensures SubOk(s', i) { assert SubOk(s, i); }
  }

  lemma JoinNewKeepsInv(s: State, key: MuxKey, v: Viewer)
    requires Inv(s) && v !in s.phase && key !in s.subs
    ensures Inv(JoinStep(s, key, v))
  {
    var s' := JoinStep(s, key, v);
    var id := |s.heap|;
    assert s'.heap[id].viewers == {v} && s'.heap[..id] == s.heap;
    forall k <- s'.subs ensures KeyOk(s', k) { if k != key { assert KeyOk(s, k); } }
    forall i | 0 <= i < |s'.heap| ensures SharedOk(s', i) {
      if i < id { assert SharedOk(s, i) && s'.heap[i] == s.heap[i]; }
    }
    forall i, w | 0 <= i < |s'.heap| ensures MemberOk(s', i, w) {
      if i < id { assert MemberOk(s, i, w); } else if w in s.phase { assert PhaseOk(s, w); }
    }
    forall i | 0 <= i < |s'.owner| ensures SubOk(s', i) && s'.owner[i] != id { assert SubOk(s, i); }
    forall w <- s'.phase ensures PhaseOk(s', w) { if w != v { assert PhaseOk(s, w); } }
  }

  lemma RecordKeepsInv(s: State, v: Viewer, ok: bool)
    requires Inv(s) && CanRecord(s, v)
    ensures Inv(RecordStep(s, v, ok))
  {
    var s' := RecordStep(s, v, ok);
    var id := s.phase[v].ss;
    assert PhaseOk(s, v) && SharedOk(s, id) && MemberOk(s, id, v);
    forall k <- s'.subs ensures KeyOk(s', k) { assert KeyOk(s, k); }
    forall i | 0 <= i < |s'.heap| ensures SharedOk(s', i) { assert SharedOk(s, i); }
    forall i, w | 0 <= i < |s'.heap| ensures MemberOk(s', i, w) { assert MemberOk(s, i, w); }
    forall w <- s'.phase ensures PhaseOk(s', w) { assert PhaseOk(s, w); }
    forall i | 0 <= i < |s'.owner| ensures SubOk(s', i) {
      if i < |s.owner| { assert SubOk(s, i); }
    }
  }

  lemma PublishKeepsInv(s: State, v: Viewer)
    requires Inv(s) && CanPublish(s, v)
    ensures Inv(PublishStep(s, v))
  {
    var s' := PublishStep(s, v);
    assert PhaseOk(s, v) && SharedOk(s, s.phase[v].ss) && MemberOk(s, s.phase[v].ss, v);
    forall k <- s'.subs ensures KeyOk(s', k) { assert KeyOk(s, k); }
    forall i | 0 <= i < |s'.heap| ensures SharedOk(s', i) { assert SharedOk(s, i); }
    forall i, w | 0 <= i < |s'.heap| ensures MemberOk(s', i, w) { assert MemberOk(s, i, w); }
    forall w <- s'.phase ensures PhaseOk(s', w) { assert PhaseOk(s, w); }
    forall i | 0 <= i < |s'.owner| ensures SubOk(s', i) { assert SubOk(s, i); }
  }

  lemma WakeKeepsInv(s: State, v: Viewer)
    requires Inv(s) && CanWake(s, v)
    ensures Inv(WakeStep(s, v))
  {
    var s' := WakeStep(s, v);
    assert PhaseOk(s, v);
    forall k <- s'.subs ensures KeyOk(s', k) { assert KeyOk(s, k); }
    forall i | 0 <= i < |s'.heap| ensures SharedOk(s', i) { assert SharedOk(s, i); }
    forall i, w | 0 <= i < |s'.heap| ensures MemberOk(s', i, w) { assert MemberOk(s, i, w); }
    forall w <- s'.phase ensures PhaseOk(s', w) { assert PhaseOk(s, w); }
    forall i | 0 <= i < |s'.owner| ensures SubOk(s', i) { assert SubOk(s, i); }
  }

  // A viewer that has not left finds its own shared subscription under its key; one that has left
  // finds another one, or none, and is not a member of what it finds.
  lemma DetachFinds(s: State, v: Viewer)
    requires Inv(s) && v in s.phase && v in s.keyOf
    ensures !s.phase[v].Left? ==> s.keyOf[v] in s.subs && s.subs[s.keyOf[v]] == s.phase[v].ss
    ensures s.phase[v].Left? && s.keyOf[v] in s.subs
            ==> s.subs[s.keyOf[v]] < |s.heap| && v !in s.heap[s.subs[s.keyOf[v]]].viewers
  {
    assert PhaseOk(s, v);
    assert SharedOk(s, s.phase[v].ss) && MemberOk(s, s.phase[v].ss, v);
    if s.keyOf[v] in s.subs {
      assert KeyOk(s, s.keyOf[v]);
      assert MemberOk(s, s.subs[s.keyOf[v]], v);
    }
  }

  lemma SecondDetachChangesNothing(s: State, v: Viewer)
    requires Inv(s) && CanDetach(s, v) && s.phase[v].Left?
    ensures DetachStep(s, v) == s
  {
    DetachFinds(s, v);
    assert s.phase[v := s.phase[v]] == s.phase;
    if s.keyOf[v] in s.subs {
      var id := s.subs[s.keyOf[v]];
      assert KeyOk(s, s.keyOf[v]);
      assert s.heap[id].viewers - {v} == s.heap[id].viewers;
      assert s.heap[id := s.heap[id]] == s.heap;
    }
  }

  lemma FirstDetachKeepsMembers(s: State, v: Viewer)
    requires Inv(s) && CanDetach(s, v) && !s.phase[v].Left?
    ensures MembersInv(DetachStep(s, v))
  {
    DetachFinds(s, v);
    var s' := DetachStep(s, v);
    var id := s.phase[v].ss;
    forall i, w | 0 <= i < |s'.heap| ensures MemberOk(s', i, w) {
      assert MemberOk(s, i, w);
      assert i == id && s.heap[id].viewers - {v} == {} && w in s.heap[id].viewers ==> w == v;
    }
  }

  lemma FirstDetachKeepsShared(s: State, v: Viewer)
    requires Inv(s) && CanDetach(s, v) && !s.phase[v].Left?
    ensures KeysInv(DetachStep(s, v)) && HeapInv(DetachStep(s, v)) && AttemptsInv(DetachStep(s, v))
  {
    DetachFinds(s, v);
    var s' := DetachStep(s, v);
    assert PhaseOk(s, v) && SharedOk(s, s.phase[v].ss);
    forall k <- s'.subs ensures KeyOk(s', k) { assert KeyOk(s, k); }
    forall i | 0 <= i < |s'.heap| ensures SharedOk(s', i) { assert SharedOk(s, i); }
  }

  lemma FirstDetachKeepsPhases(s: State, v: Viewer)
    requires Inv(s) && CanDetach(s, v) && !s.phase[v].Left?
    ensures PhasesInv(DetachStep(s, v))
  {
    DetachFinds(s, v);
    var s' := DetachStep(s, v);
    assert PhaseOk(s, v) && SharedOk(s, s.phase[v].ss);
    forall w <- s'.phase ensures PhaseOk(s', w) {
      assert PhaseOk(s, w);
      assert MemberOk(s, s.phase[v].ss, w);
    }
  }

  lemma FirstDetachKeepsSubs(s: State, v: Viewer)
    requires Inv(s) && CanDetach(s, v) && !s.phase[v].Left?
    ensures SubsInv(DetachStep(s, v))
  {
    DetachFinds(s, v);
    var s' := DetachStep(s, v);
    assert PhaseOk(s, v) && SharedOk(s, s.phase[v].ss);
    forall i | 0 <= i < |s'.owner| ensures SubOk(s', i) { assert SubOk(s, i); }
  }

  lemma DetachKeepsInv(s: State, v: Viewer)
    requires Inv(s) && CanDetach(s, v)
    ensures Inv(DetachStep(s, v))
  {
    if s.phase[v].Left? {
      SecondDetachChangesNothing(s, v);
    } else {
      FirstDetachKeepsShared(s, v);
      FirstDetachKeepsMembers(s, v);
      FirstDetachKeepsPhases(s, v);
      FirstDetachKeepsSubs(s, v);
    }
  }

  lemma UnsubscribeKeepsInv(s: State, i: SubId)
    requires Inv(s) && i in s.pending
    ensures Inv(Next(s, Unsubscribe(i)))
  {
    var s' := Next(s, Unsubscribe(i));
    forall k <- s'.subs ensures KeyOk(s', k) { assert KeyOk(s, k); }
    forall id | 0 <= id < |s'.heap| ensures SharedOk(s', id) { assert SharedOk(s, id); }
    forall id, w | 0 <= id < |s'.heap| ensures MemberOk(s', id, w) { assert MemberOk(s, id, w); }
    forall w <- s'.phase ensures PhaseOk(s', w) { assert PhaseOk(s, w); }
    forall j | 0 <= j < |s'.owner| ensures SubOk(s', j) { assert SubOk(s, j); }
  }

  lemma StepKeepsInv(s: State, a: Action)
    requires Inv(s) && Enabled(s, a)
    ensures Inv(Next(s, a))
  {
    match a
    case Join(key, v) => if key in s.subs { JoinExistingKeepsInv(s, key, v); } else { JoinNewKeepsInv(s, key, v); }
    case Record(v, ok) => RecordKeepsInv(s, v, ok);
    case Publish(v) => PublishKeepsInv(s, v);
    case Wake(v) => WakeKeepsInv(s, v);
    case Detach(v) => DetachKeepsInv(s, v);
    case Unsubscribe(i) => UnsubscribeKeepsInv(s, i);
  }

  lemma {:induction false} RunsKeepInv(acts: seq<Action>, s: State)
    requires Run(acts, s)
    ensures Inv(s)
    decreases |acts|
  {
    if acts != [] {
      var p := After(acts[..|acts| - 1]).value;
      RunsKeepInv(acts[..|acts| - 1], p);
      StepKeepsInv(p, acts[|acts| - 1]);
    }
  }

  /* ---- what every run of concurrent attaches and unsubscribes guarantees ---- */

  predicate Settled(p: Phase) { p.Failing? || p.Attached? || p.Left? }

  predicate Succeeded(p: Phase) { p.Attached? || (p.Left? && p.ok) }

  // All joiners of one shared subscription get the same outcome.
  lemma JoinersAgree(acts: seq<Action>, s: State, v: Viewer, w: Viewer)
    requires Run(acts, s)
    requires v in s.phase && w in s.phase && s.phase[v].ss == s.phase[w].ss
    requires Settled(s.phase[v]) && Settled(s.phase[w])
    ensures Succeeded(s.phase[v]) == Succeeded(s.phase[w])
  {
    RunsKeepInv(acts, s);
    assert PhaseOk(s, v) && PhaseOk(s, w);
  }

  // Two viewers present at the same time share a subscription exactly when every part of their
  // keys agrees, fromSeq included, and what they share is the entry of the map.
  lemma ShareExactlyByKey(acts: seq<Action>, s: State, v: Viewer, w: Viewer)
    requires Run(acts, s)
    requires v in s.phase && w in s.phase && !s.phase[v].Left? && !s.phase[w].Left?
    ensures v in s.keyOf && w in s.keyOf
    ensures s.phase[v].ss == s.phase[w].ss <==> s.keyOf[v] == s.keyOf[w]
    ensures s.keyOf[v] in s.subs && s.subs[s.keyOf[v]] == s.phase[v].ss
  {
    RunsKeepInv(acts, s);
    assert PhaseOk(s, v) && PhaseOk(s, w);
    DetachFinds(s, v);
    DetachFinds(s, w);
  }

  // The map holds no abandoned entry, and Subscribe ran exactly once per shared subscription.
  lemma EntriesAreUsedAndSubscribedOnce(acts: seq<Action>, s: State)
    requires Run(acts, s)
    ensures forall k <- s.subs ::
            s.subs[k] < |s.heap| && exists v <- s.phase :: !s.phase[v].Left? && s.phase[v].ss == s.subs[k]
    ensures forall i, j | 0 <= i < |s.attempts| && 0 <= j < |s.attempts| && s.attempts[i] == s.attempts[j] :: i == j
    ensures forall id | 0 <= id < |s.heap| :: id in s.attempts
  {
    RunsKeepInv(acts, s);
    forall k <- s.subs
      ensures s.subs[k] < |s.heap| && exists v <- s.phase :: !s.phase[v].Left? && s.phase[v].ss == s.subs[k]
    {
      assert KeyOk(s, k);
      var v :| v in s.heap[s.subs[k]].viewers;
      assert MemberOk(s, s.subs[k], v);
    }
    forall id | 0 <= id < |s.heap| ensures id in s.attempts { assert s.attempts[id] == id; }
  }

  lemma HeldExactlyWhileViewed(s: State, i: SubId)
    requires Inv(s) && i < |s.owner|
    ensures s.owner[i] < |s.heap|
    ensures s.heap[s.owner[i]].viewers != {} <==> s.heap[s.owner[i]].sub == Some(i)
  {
    assert SubOk(s, i);
    var sh := s.heap[s.owner[i]];
    assert SharedOk(s, s.owner[i]);
    assert !sh.ready ==> PhaseOk(s, sh.leader);
    if sh.viewers != {} {
      assert sh.sub.Some?;
      assert SubOk(s, sh.sub.value);
    }
  }

  // A successful subscription has been handed to Unsubscribe exactly when its last viewer has left,
  // and never more than once.
  lemma UnsubscribedOnceWhenEmpty(acts: seq<Action>, s: State, i: SubId)
    requires Run(acts, s) && i < |s.owner|
    ensures s.owner[i] < |s.heap|
    ensures s.pending[i] + s.closed[i] == if s.heap[s.owner[i]].viewers == {} then 1 else 0
  {
    RunsKeepInv(acts, s);
    HeldExactlyWhileViewed(s, i);
    assert SubOk(s, i);
  }

  // Once every viewer has left and no Unsubscribe call is outstanding nothing leaks: the map is
  // empty and every subscription ever opened was unsubscribed exactly once.
  lemma NothingLeaks(acts: seq<Action>, s: State)
    requires Run(acts, s)
    requires (forall v <- s.phase :: s.phase[v].Left?) && s.pending == multiset{}
    ensures s.subs == map[]
    ensures forall i | 0 <= i < |s.owner| :: s.closed[i] == 1
  {
    EntriesAreUsedAndSubscribedOnce(acts, s);
    RunsKeepInv(acts, s);
    forall i | 0 <= i < |s.owner| ensures s.closed[i] == 1 {
      UnsubscribedOnceWhenEmpty(acts, s, i);
      forall v ensures v !in s.heap[s.owner[i]].viewers { assert MemberOk(s, s.owner[i], v); }
    }
  }

  // Calling the closure again is harmless at any later time, whoever has reused the key since.
  lemma SecondCallIsHarmless(acts: seq<Action>, s: State, v: Viewer)
    requires Run(acts, s) && v in s.phase && s.phase[v].Left?
    ensures Enabled(s, Detach(v)) && Next(s, Detach(v)) == s
  {
    RunsKeepInv(acts, s);
    assert PhaseOk(s, v);
    DetachFinds(s, v);
    SecondDetachChangesNothing(s, v);
  }

  // The bound in CanJoin asks nothing of a caller: any new viewer may join at any time.
  lemma AnyoneMayJoin(acts: seq<Action>, s: State, key: MuxKey, v: Viewer)
    requires Run(acts, s) && v !in s.phase
    ensures CanJoin(s, key, v)
  {
    RunsKeepInv(acts, s);
    assert key in s.subs ==> KeyOk(s, key);
  }

  // Nobody is stranded: while some attach call is unfinished, one of the calls can take its next step,
  // and a waiter that cannot go on waits for the call that is subscribing for it.
  lemma NobodyIsStranded(acts: seq<Action>, s: State, v: Viewer)
    requires Run(acts, s) && v in s.phase
    ensures s.phase[v].ss < |s.heap|
    ensures match s.phase[v]
            case Subscribing(_) => Enabled(s, Record(v, true)) && Enabled(s, Record(v, false))
            case Recorded(_, _) => Enabled(s, Publish(v))
            case Waiting(id) =>
              Enabled(s, Wake(v)) ||
              var l := s.heap[id].leader;
              l in s.phase && s.phase[l].ss == id && (s.phase[l].Subscribing? || s.phase[l].Recorded?)
            case _ => Enabled(s, Detach(v))
  {
    RunsKeepInv(acts, s);
    assert PhaseOk(s, v) && SharedOk(s, s.phase[v].ss);
    DetachFinds(s, v);
  }

  /* ---- the locked sections over objects ---- */

  class SharedSub {
    const key: MuxKey
    var viewers: set<Viewer>
    var sub: Option<SubId>
    var subErr: bool
    var subStarted: bool
    var ready: bool
    ghost const leader: Viewer
    ghost const id: nat

    constructor (key: MuxKey, ghost leader: Viewer, ghost id: nat)
      ensures this.key == key && this.leader == leader && this.id == id
      ensures viewers == {} && sub == None && !subErr && !subStarted && !ready
    {
      this.key, this.leader, this.id := key, leader, id;
      viewers, sub, subErr, subStarted, ready := {}, None, false, false, false;
    }

    ghost function Snapshot(): Shared
      reads this
    {
      Shared(key, viewers, sub, subErr, subStarted, ready, leader)
    }

    // The last viewer takes the subscription along.
    method RemoveViewer(v: Viewer) returns (empty: bool, taken: Option<SubId>)
      modifies this`viewers, this`sub
      ensures empty <==> old(viewers) - {v} == {}
      ensures taken == if empty then old(sub) else None
      ensures Snapshot() == old(Snapshot()).(viewers := old(viewers) - {v}, sub := if empty then None else old(sub))
    {
      viewers := viewers - {v};
      empty, taken := viewers == {}, None;
      if empty { taken, sub := sub, None; }
    }
  }

  class SubMux {
    var subs: map<MuxKey, SharedSub>
    ghost var all: seq<SharedSub>   // every shared subscription ever made, by id
    ghost var st: State             // the state of the model above, tied to the fields by Valid

    ghost predicate Valid()
      reads this, all
    {
      && |all| == |st.heap|
      && (forall i | 0 <= i < |all| :: all[i].id == i && all[i].Snapshot() == st.heap[i])
      && subs.Keys == st.subs.Keys
      && (forall k <- subs :: st.subs[k] < |all| && subs[k] == all[st.subs[k]])
    }

    constructor ()
      ensures Valid() && st == NO_VIEWERS
    {
      subs, all, st := map[], [], NO_VIEWERS;
    }

    // The first locked section of attachWithSubscriber.
    method Join(key: MuxKey, v: Viewer) returns (ss: SharedSub, needSubscribe: bool)
      requires Valid() && CanJoin(st, key, v)
      modifies this, all
      ensures Valid() && st == JoinStep(old(st), key, v)
      ensures st.phase[v].ss < |all| && ss == all[st.phase[v].ss]
      ensures needSubscribe <==> st.phase[v].Subscribing?
    {
      if key in subs {
        ss := subs[key];
      } else {
        ss := new SharedSub(key, v, |all|);
        subs := subs[key := ss];
        all := all + [ss];
      }
      needSubscribe := !ss.subStarted;
      ss.viewers := ss.viewers + {v};
      if needSubscribe {
        ss.subStarted := true;
      }
      st := JoinStep(st, key, v);
      assert ss == all[st.phase[v].ss] && ss.Snapshot() == st.heap[st.phase[v].ss];
      forall i | 0 <= i < |all| && i != st.phase[v].ss ensures all[i].id == i && all[i].Snapshot() == st.heap[i] {
        assert all[i] == old(all)[i] && all[i] != ss && unchanged(all[i]);
      }
    }

    // The result of Subscribe is stored under the lock of the shared subscription.
    method Record(ss: SharedSub, v: Viewer, result: Option<SubId>)
      requires Valid() && CanRecord(st, v) && ss in all && ss == all[st.phase[v].ss]
      requires result.Some? ==> result.value == |st.owner|
      modifies this, all
      ensures Valid() && all == old(all) && st == RecordStep(old(st), v, result.Some?)
    {
      ss.sub := result;
      ss.subErr := result.None?;
      st := RecordStep(st, v, result.Some?);
    }

    method CloseReady(ss: SharedSub, v: Viewer)
      requires Valid() && CanPublish(st, v) && ss in all && ss == all[st.phase[v].ss]
      modifies this, all
      ensures Valid() && all == old(all) && st == PublishStep(old(st), v)
    {
      ss.ready := true;
      st := PublishStep(st, v);
    }

    // A waiter continues once `ready` is closed.
    method Wake(ss: SharedSub, v: Viewer) returns (failed: bool)
      requires Valid() && CanWake(st, v) && ss in all && ss == all[st.phase[v].ss]
      modifies this
      ensures Valid() && all == old(all) && st == WakeStep(old(st), v)
      ensures failed <==> st.phase[v].Failing?
    {
      failed := ss.subErr;
      st := WakeStep(st, v);
    }

    // The locked section of detach; the subscription to close, if any, is returned.
    method Detach(key: MuxKey, v: Viewer) returns (sub: Option<SubId>)
      requires Valid() && CanDetach(st, v) && key == st.keyOf[v]
      modifies this, all
      ensures Valid() && all == old(all) && st == DetachStep(old(st), v)
      ensures st.pending == old(st).pending + match sub case Some(i) => multiset{i} case None => multiset{}
    {
      sub := None;
      ghost var after := DetachStep(st, v);
      if key in subs {
        ghost var rest := subs[key].viewers - {v};
        sub := LeaveShared(key, v, st.subs[key]);
        assert st.heap[st.subs[key]].viewers - {v} == rest;
      }
      st := after;
    }

    // Leaves `st` behind the fields by one step.
    method LeaveShared(key: MuxKey, v: Viewer, ghost id: nat) returns (sub: Option<SubId>)
      requires Valid() && key in subs && id == st.subs[key]
      modifies this`subs, all
      ensures all[id].Snapshot() ==
              var sh := st.heap[id];
              var rest := sh.viewers - {v};
              sh.(viewers := rest, sub := if rest == {} then None else sh.sub)
      ensures forall i | 0 <= i < |all| && i != id :: all[i].id == i && all[i].Snapshot() == st.heap[i]
      ensures all[id].id == id
      ensures sub == if st.heap[id].viewers - {v} == {} then st.heap[id].sub else None
      ensures subs ==
              if st.heap[id].viewers - {v} == {} then map k | k in old(subs) && k != key :: old(subs)[k]
              else old(subs)
    {
      var ss := subs[key];
      assert forall i | 0 <= i < |all| && i != id :: all[i] != ss;
      var empty;
      empty, sub := ss.RemoveViewer(v);
      if empty { subs := map k | k in subs && k != key :: subs[k]; }
    }
  }
}
