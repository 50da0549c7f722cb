/** What a run of the multiplexer says about the calls it is made of. */
module MuxHistory {
  import opened LiveMux
  import opened Wrappers

  // The viewers whose Subscribe call succeeded, in the order of the calls.
  function Successes(acts: seq<Action>): seq<Viewer> {
    if acts == [] then []
    else
      var n := |acts| - 1;
      Successes(acts[..n]) + if acts[n].Record? && acts[n].ok then [acts[n].v] else []
  }

  // The Unsubscribe calls that have run.
  function Closes(acts: seq<Action>): multiset<SubId> {
    if acts == [] then multiset{}
    else
      var n := |acts| - 1;
      Closes(acts[..n]) + if acts[n].Unsubscribe? then multiset{acts[n].sub} else multiset{}
  }

  // The Subscribe call for a shared subscription is running, or it has returned once and its result is what
  // the shared subscription says.
  ghost predicate CallOk(acts: seq<Action>, s: State, id: nat)
    requires id < |s.heap|
  {
    var l := s.heap[id].leader;
    && l in s.phase && s.phase[l].ss == id
    && if s.phase[l].Subscribing? then Record(l, true) !in acts && Record(l, false) !in acts
       else Record(l, !s.heap[id].failed) in acts && Record(l, s.heap[id].failed) !in acts
  }

  ghost predicate CallsOk(acts: seq<Action>, s: State) { forall id | 0 <= id < |s.heap| :: CallOk(acts, s, id) }

  lemma {:induction false} InSnoc<T>(xs: seq<T>, x: T, y: T)
    ensures y in xs + [x] <==> y in xs || y == x
  {}

  lemma RecordsOf(acts: seq<Action>, a: Action, v: Viewer)
    requires !a.Record? || a.v != v
    ensures forall ok :: Record(v, ok) in acts + [a] <==> Record(v, ok) in acts
  {}

  lemma JoinKeepsCalls(acts: seq<Action>, p: State, key: MuxKey, v: Viewer)
    requires Inv(p) && CanJoin(p, key, v) && CallsOk(acts, p) && NewcomersSilent(acts, p)
    ensures CallsOk(acts + [Join(key, v)], JoinStep(p, key, v))
  {
    var s := JoinStep(p, key, v);
    forall id | 0 <= id < |s.heap| ensures CallOk(acts + [Join(key, v)], s, id) {
      RecordsOf(acts, Join(key, v), s.heap[id].leader);
      if id < |p.heap| {
        assert CallOk(acts, p, id);
        assert key in p.subs ==> KeyOk(p, key) && SharedOk(p, p.subs[key]);
        assert s.heap[id].leader == p.heap[id].leader;
      }
    }
  }

  // Whoever has not joined has not subscribed.
  ghost predicate NewcomersSilent(acts: seq<Action>, s: State) {
    forall v, ok :: Record(v, ok) in acts ==> v in s.phase
  }

  lemma RecordKeepsCalls(acts: seq<Action>, p: State, v: Viewer, ok: bool)
    requires Inv(p) && CanRecord(p, v) && CallsOk(acts, p)
    ensures CallsOk(acts + [Record(v, ok)], RecordStep(p, v, ok))
  {
    var s := RecordStep(p, v, ok);
    assert PhaseOk(p, v);
    forall id | 0 <= id < |s.heap| ensures CallOk(acts + [Record(v, ok)], s, id) {
      assert CallOk(acts, p, id);
      if id != p.phase[v].ss { RecordsOf(acts, Record(v, ok), s.heap[id].leader); }
    }
  }

  lemma OtherKeepsCalls(acts: seq<Action>, p: State, a: Action)
    requires Inv(p) && Enabled(p, a) && CallsOk(acts, p) && !a.Join? && !a.Record?
    ensures CallsOk(acts + [a], Next(p, a))
  {
    var s := Next(p, a);
    forall id | 0 <= id < |s.heap| ensures CallOk(acts + [a], s, id) {
      assert CallOk(acts, p, id) && SharedOk(p, id);
      RecordsOf(acts, a, p.heap[id].leader);
      SameLeader(p, a);
    }
  }

  // The leaders, the results and who is still subscribing.
  ghost predicate SameShared(p: State, s: State) {
    |s.heap| == |p.heap|
    && forall id | 0 <= id < |p.heap| ::
         s.heap[id].leader == p.heap[id].leader && s.heap[id].failed == p.heap[id].failed
  }

  ghost predicate SamePhases(p: State, s: State) {
    s.phase.Keys == p.phase.Keys
    && forall v <- p.phase :: s.phase[v].ss == p.phase[v].ss && s.phase[v].Subscribing? == p.phase[v].Subscribing?
  }

  ghost predicate SameCalls(p: State, s: State) { SameShared(p, s) && SamePhases(p, s) }

  lemma DetachSameShared(p: State, v: Viewer)
    requires Inv(p) && CanDetach(p, v)
    ensures SameShared(p, DetachStep(p, v))
  {}

  lemma DetachSameCalls(p: State, v: Viewer)
    requires Inv(p) && CanDetach(p, v)
    ensures SameCalls(p, DetachStep(p, v))
  {
    DetachSameShared(p, v);
    assert DetachStep(p, v).phase == p.phase[v := DetachStep(p, v).phase[v]];
  }

  lemma SameLeader(p: State, a: Action)
    requires Inv(p) && Enabled(p, a) && !a.Join? && !a.Record?
    ensures SameCalls(p, Next(p, a))
  {
    if a.Detach? { DetachSameCalls(p, a.v); }
  }

  lemma StepIsSilent(acts: seq<Action>, p: State, a: Action)
    requires Inv(p) && Enabled(p, a) && NewcomersSilent(acts, p)
    ensures NewcomersSilent(acts + [a], Next(p, a))
  {
    if !a.Join? && !a.Record? { SameLeader(p, a); }
  }

  lemma StepKeepsCalls(acts: seq<Action>, p: State, a: Action)
    requires Inv(p) && Enabled(p, a) && CallsOk(acts, p) && NewcomersSilent(acts, p)
    ensures CallsOk(acts + [a], Next(p, a))
  {
    match a
    case Join(key, v) => JoinKeepsCalls(acts, p, key, v);
    case Record(v, ok) => RecordKeepsCalls(acts, p, v, ok);
    case _ => OtherKeepsCalls(acts, p, a);
  }

  lemma {:induction false} RunsKeepCalls(acts: seq<Action>, s: State)
    requires Run(acts, s)
    ensures CallsOk(acts, s) && NewcomersSilent(acts, s)
    decreases |acts|
  {
    if acts != [] {
      var before, a, p := LastStep(acts, s);
      RunsKeepInv(before, p);
      RunsKeepCalls(before, p);
      StepKeepsCalls(before, p, a);
      StepIsSilent(before, p, a);
    }
  }

  lemma LastStep(acts: seq<Action>, s: State) returns (before: seq<Action>, a: Action, p: State)
    requires Run(acts, s) && acts != []
    ensures acts == before + [a] && Run(before, p) && Enabled(p, a) && s == Next(p, a)
  {
    var n := |acts| - 1;
    before, a, p := acts[..n], acts[n], After(acts[..n]).value;
  }

  // What attach answers is what the one Subscribe call for the shared subscription answered.
  lemma OutcomeIsTheCalls(acts: seq<Action>, s: State, v: Viewer)
    requires Run(acts, s) && v in s.phase && Settled(s.phase[v])
    ensures s.phase[v].ss < |s.heap|
    ensures Succeeded(s.phase[v]) <==> Record(s.heap[s.phase[v].ss].leader, true) in acts
  {
    RunsKeepInv(acts, s);
    RunsKeepCalls(acts, s);
    assert PhaseOk(s, v);
    var id := s.phase[v].ss;
    assert SharedOk(s, id) && CallOk(acts, s, id);
    assert PhaseOk(s, s.heap[id].leader);
  }

  ghost predicate OwnerOk(s: State, v: Viewer, id: nat) {
    v in s.phase && s.phase[v].ss == id < |s.heap| && s.heap[id].leader == v
  }

  ghost predicate OwnersOk(acts: seq<Action>, s: State) {
    && |s.owner| == |Successes(acts)|
    && forall i | 0 <= i < |s.owner| :: OwnerOk(s, Successes(acts)[i], s.owner[i])
  }

  lemma JoinKeepsOwner(p: State, key: MuxKey, v: Viewer, w: Viewer, id: nat)
    requires Inv(p) && CanJoin(p, key, v) && OwnerOk(p, w, id)
    ensures OwnerOk(JoinStep(p, key, v), w, id)
  {
    assert key in p.subs ==> KeyOk(p, key) && SharedOk(p, p.subs[key]);
  }

  lemma StepKeepsOwner(p: State, a: Action, w: Viewer, id: nat)
    requires Inv(p) && Enabled(p, a) && OwnerOk(p, w, id)
    ensures OwnerOk(Next(p, a), w, id)
  {
    match a
    case Join(key, v) => JoinKeepsOwner(p, key, v, w, id);
    case Record(v, ok) =>
    case _ => SameLeader(p, a);
  }

  lemma StepOwners(p: State, a: Action)
    requires Inv(p) && Enabled(p, a)
    ensures Next(p, a).owner == p.owner + if a.Record? && a.ok then [p.phase[a.v].ss] else []
    ensures a.Record? ==> OwnerOk(Next(p, a), a.v, p.phase[a.v].ss)
  {
    if a.Record? { assert PhaseOk(p, a.v); }
  }

  // Every subscription a Subscribe call returned is accounted for, in the order of the calls, under the
  // shared subscription it was opened for.
  lemma {:induction false} OwnersAreSuccesses(acts: seq<Action>, s: State)
    requires Run(acts, s)
    ensures OwnersOk(acts, s)
    decreases |acts|
  {
    if acts != [] {
      var n := |acts| - 1;
      var a, p := acts[n], After(acts[..n]).value;
      RunsKeepInv(acts[..n], p);
      OwnersAreSuccesses(acts[..n], p);
      StepOwners(p, a);
      forall i | 0 <= i < |p.owner| ensures OwnerOk(s, Successes(acts[..n])[i], p.owner[i]) {
        StepKeepsOwner(p, a, Successes(acts[..n])[i], p.owner[i]);
      }
    }
  }

  /* ---- who asked for what ---- */

  ghost predicate Asked(s: State, key: MuxKey, v: Viewer) { v in s.phase && v in s.keyOf && s.keyOf[v] == key }

  ghost predicate Gone(s: State, v: Viewer) { v in s.phase && s.phase[v].Left? }

  lemma StepAsks(p: State, a: Action, key: MuxKey, v: Viewer)
    requires Inv(p) && Enabled(p, a)
    ensures Asked(Next(p, a), key, v) <==> Asked(p, key, v) || a == Join(key, v)
  {
    if a.Detach? { DetachFinds(p, a.v); }
  }

  lemma StepLeaves(p: State, a: Action, v: Viewer)
    requires Inv(p) && Enabled(p, a)
    ensures Gone(Next(p, a), v) <==> Gone(p, v) || a == Detach(v)
  {
    if a.Detach? { DetachFinds(p, a.v); }
  }

  // The key of a viewer is the one it asked for, and it has left exactly if it detached.
  lemma {:induction false} RequestsAreKept(acts: seq<Action>, s: State, key: MuxKey, v: Viewer)
    requires Run(acts, s)
    ensures Join(key, v) in acts <==> Asked(s, key, v)
    ensures Detach(v) in acts <==> Gone(s, v)
    decreases |acts|
  {
    if acts != [] {
      var n := |acts| - 1;
      var a, p := acts[n], After(acts[..n]).value;
      assert acts == acts[..n] + [a];
      RunsKeepInv(acts[..n], p);
      RequestsAreKept(acts[..n], p, key, v);
      StepAsks(p, a, key, v);
      StepLeaves(p, a, v);
    }
  }

  // The subscriptions counted as closed are those whose Unsubscribe call has run.
  lemma {:induction false} ClosedAreUnsubscribed(acts: seq<Action>, s: State)
    requires Run(acts, s)
    ensures s.closed == Closes(acts)
    decreases |acts|
  {
    if acts != [] {
      var n := |acts| - 1;
      ClosedAreUnsubscribed(acts[..n], After(acts[..n]).value);
      StepCloses(After(acts[..n]).value, acts[n]);
    }
  }

  lemma StepCloses(p: State, a: Action)
    requires Enabled(p, a)
    ensures Next(p, a).closed == p.closed + if a.Unsubscribe? then multiset{a.sub} else multiset{}
  {}

  // A subscription that was handed over can be unsubscribed, and then is once more.
  lemma PendingCanRun(s: State, i: SubId)
    requires s.pending[i] > 0
    ensures Enabled(s, Unsubscribe(i))
    ensures var s' := Next(s, Unsubscribe(i));
            && s'.pending[i] + 1 == s.pending[i] && s'.closed[i] == s.closed[i] + 1
            && s'.(pending := s.pending, closed := s.closed) == s
  {}
}
