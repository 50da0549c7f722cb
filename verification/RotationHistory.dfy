/** Over whole runs of token rotation: who may rotate what, and what a revocation leaves. */
module RotationHistory {
  import opened RefreshRotation
  import opened Wrappers

  /* ---- what one look at the table decides ---- */

  // A rotation goes on exactly with a token that is present, unreplaced, unexpired and presented with its own
  // fingerprint by a user that loads. A replaced token is reuse, whatever else holds; an unreplaced one past
  // its expiry is only expired.
  lemma CheckExactly(rows: Table, now: int, t: TokenId, fp: string, loads: bool)
    ensures var st := Check(rows, now, t, fp, loads);
            && (st.Validated? <==> Acceptable(rows, t, fp, loads, now))
            && (st.Validated? ==> st == Validated(t, rows[t].user, rows[t].fingerprint))
            && (forall u :: st == ReuseSeen(u) <==>
                  fp != "" && t in rows && rows[t].replacedBy.Some? && u == rows[t].user)
            && (forall e :: st == ExpiredSeen(e) <==>
                  fp != "" && e == t && t in rows && rows[t].replacedBy.None? && now > rows[t].expiresAt)
  {}

  // Without a fault the mark wins exactly if the old row is still there, unreplaced, and the new row is
  // there too; it then changes that one link. Otherwise it changes nothing, and leads to a revocation
  // exactly if the old row is gone or replaced.
  lemma MarkExactly(s: State, r: Rotation)
    requires CanMark(s, r)
    ensures var (e, n) := (s.rots[r].e, s.rots[r].n);
            var s' := Next(s, Mark(r, NoFault));
            var free := e in s.rows && s.rows[e].replacedBy.None?;
            && (s'.rots[r] == Won(e, n) <==> free && n in s.rows)
            && (s'.rots[r].MarkFailed? <==> !free)
            && s'.rows == if free && n in s.rows then s.rows[e := s.rows[e].(replacedBy := Some(n))] else s.rows
  {}

  /* ---- the history of a run, from its actions alone ---- */

  function Clock(acts: seq<Action>): int {
    if acts == [] then 0
    else match acts[|acts| - 1] case Tick(to) => to case _ => Clock(acts[..|acts| - 1])
  }

  datatype Attempt = Attempt(t: TokenId, fingerprint: string, loads: bool, at: int)

  // What each rotation presented, and when.
  function Attempts(acts: seq<Action>): map<Rotation, Attempt> {
    if acts == [] then map[]
    else
      var n := |acts| - 1;
      match acts[n]
      case Begin(r, t, fp, loads) => Attempts(acts[..n])[r := Attempt(t, fp, loads, Clock(acts[..n]))]
      case _ => Attempts(acts[..n])
  }

  datatype Issuance = Issuance(user: string, fingerprint: string, at: int)

  function IssuedBy(past: seq<Issuance>, attempts: map<Rotation, Attempt>, a: Action, at: int): seq<Issuance> {
    match a
    case Login(user, fp) => if user == "" || fp == "" then [] else [Issuance(user, fp, at)]
    case Issue(r, true) =>
      if r in attempts && attempts[r].t < |past| then [Issuance(past[attempts[r].t].user, attempts[r].fingerprint, at)]
      else []
    case _ => []
  }

  // Every token in the order of issue: to whom, bound to which fingerprint, and when. A login issues to the
  // user that logs in; a rotation to the user of the token it presented.
  function Issues(acts: seq<Action>): seq<Issuance> {
    if acts == [] then []
    else
      var n := |acts| - 1;
      Issues(acts[..n]) + IssuedBy(Issues(acts[..n]), Attempts(acts[..n]), acts[n], Clock(acts[..n]))
  }

  lemma {:induction false} ExecSnoc(s: State, acts: seq<Action>)
    requires acts != []
    ensures var n := |acts| - 1;
            Exec(s, acts) == match Exec(s, acts[..n])
                             case Some(p) => if Enabled(p, acts[n]) then Some(Next(p, acts[n])) else None
                             case None => None
    decreases |acts|
  {
    var n := |acts| - 1;
    if n == 0 {
      assert acts[1..] == [] && acts[..n] == [];
    } else if Enabled(s, acts[0]) {
      ExecSnoc(Next(s, acts[0]), acts[1..]);
      assert acts[1..][..n - 1] == acts[..n][1..];
    }
  }

  /* ---- the table agrees with the history ---- */

  ghost predicate RowTold(issues: seq<Issuance>, ttl: int, rows: Table, t: TokenId)
    requires t in rows
  {
    t < |issues| && rows[t].user == issues[t].user && rows[t].fingerprint == issues[t].fingerprint
    && rows[t].expiresAt == issues[t].at + ttl
  }

  // The rotation presented e with the fingerprint e was issued with, before e expired, and its user loaded.
  ghost predicate Entitled(issues: seq<Issuance>, ttl: int, a: Attempt, e: TokenId) {
    e == a.t < |issues| && a.fingerprint == issues[e].fingerprint && a.loads && a.at <= issues[e].at + ttl
  }

  // n was issued to the user of e, bound to the same fingerprint.
  ghost predicate Successor(issues: seq<Issuance>, e: TokenId, n: TokenId) {
    e < |issues| && n < |issues| && issues[n].user == issues[e].user && issues[n].fingerprint == issues[e].fingerprint
  }

  ghost predicate StageTold(issues: seq<Issuance>, ttl: int, a: Attempt, st: Stage) {
    match st
    case ReuseSeen(u) => a.t < |issues| && u == issues[a.t].user
    case ExpiredSeen(e) => e == a.t < |issues| && a.at > issues[e].at + ttl
    case Validated(e, u, fp) => Entitled(issues, ttl, a, e) && u == issues[e].user && fp == a.fingerprint
    case Issued(e, n, u) => Entitled(issues, ttl, a, e) && u == issues[e].user && Successor(issues, e, n)
    case MarkFailed(e, n, u) => Entitled(issues, ttl, a, e) && u == issues[e].user && Successor(issues, e, n)
    case Lost(e, n, u) => Entitled(issues, ttl, a, e) && u == issues[e].user && Successor(issues, e, n)
    case Won(e, n) => Entitled(issues, ttl, a, e) && Successor(issues, e, n)
    case Ended => true
  }

  ghost predicate Told(issues: seq<Issuance>, attempts: map<Rotation, Attempt>, now: int, ttl: int, s: State) {
    && s.now == now && s.ttl == ttl && s.nextId == |issues| && s.rots.Keys == attempts.Keys
    && (forall t <- s.rows :: RowTold(issues, ttl, s.rows, t))
    && (forall r <- s.rots :: StageTold(issues, ttl, attempts[r], s.rots[r]))
  }

  // More issues, fewer rows, and rows that differ in their links alone change nothing that is told.
  lemma StillTold(issues: seq<Issuance>, more: seq<Issuance>, ttl: int, rows: Table, rows': Table, t: TokenId)
    requires t in rows && t in rows' && rows'[t].(replacedBy := None) == rows[t].(replacedBy := None)
    requires RowTold(issues, ttl, rows, t)
    ensures RowTold(issues + more, ttl, rows', t)
  {}

  lemma StageStillTold(issues: seq<Issuance>, more: seq<Issuance>, ttl: int, a: Attempt, st: Stage)
    requires StageTold(issues, ttl, a, st)
    ensures StageTold(issues + more, ttl, a, st)
  {}

  lemma LoginTold(issues: seq<Issuance>, attempts: map<Rotation, Attempt>, now: int, ttl: int, s: State,
                  user: string, fp: string, family: nat, taint: bool)
    requires Told(issues, attempts, now, ttl, s)
    ensures Told(issues + [Issuance(user, fp, now)], attempts, now, ttl, Insert(s, user, fp, family, taint))
  {
    var s' := Insert(s, user, fp, family, taint);
    var more := [Issuance(user, fp, now)];
    forall t <- s'.rows ensures RowTold(issues + more, ttl, s'.rows, t) {
      if t != s.nextId { StillTold(issues, more, ttl, s.rows, s'.rows, t); }
    }
    forall r <- s'.rots ensures StageTold(issues + more, ttl, attempts[r], s'.rots[r]) {
      StageStillTold(issues, more, ttl, attempts[r], s.rots[r]);
    }
  }

  lemma BeginTold(issues: seq<Issuance>, attempts: map<Rotation, Attempt>, now: int, ttl: int, s: State,
                  r: Rotation, t: TokenId, fp: string, loads: bool)
    requires Told(issues, attempts, now, ttl, s) && r !in s.rots
    ensures Told(issues, attempts[r := Attempt(t, fp, loads, now)], now, ttl, Next(s, Begin(r, t, fp, loads)))
  {
    if t in s.rows { assert RowTold(issues, ttl, s.rows, t); }
    assert StageTold(issues, ttl, Attempt(t, fp, loads, now), Check(s.rows, s.now, t, fp, loads));
  }

  lemma IssueTold(issues: seq<Issuance>, attempts: map<Rotation, Attempt>, now: int, ttl: int, s: State, r: Rotation)
    requires Told(issues, attempts, now, ttl, s) && CanIssue(s, r)
    ensures var a := attempts[r];
            && a.t < |issues|
            && Told(issues + [Issuance(issues[a.t].user, a.fingerprint, now)], attempts, now, ttl,
                    IssueStep(s, r, true))
  {
    var a, st := attempts[r], s.rots[r];
    assert StageTold(issues, ttl, a, st);
    var more := [Issuance(issues[a.t].user, a.fingerprint, now)];
    LoginTold(issues, attempts, now, ttl, s, st.user, st.fingerprint, s.family[st.e], st.e in s.tainted);
    var s' := IssueStep(s, r, true);
    assert StageTold(issues + more, ttl, a, Issued(st.e, s.nextId, st.user));
    forall q <- s'.rots ensures StageTold(issues + more, ttl, attempts[q], s'.rots[q]) {
      if q != r { StageStillTold(issues, more, ttl, attempts[q], s.rots[q]); }
    }
  }

  // A step that issues nothing: it removes rows or sets links, and moves one rotation on.
  lemma QuietTold(issues: seq<Issuance>, attempts: map<Rotation, Attempt>, now: int, ttl: int, s: State, s': State)
    requires Told(issues, attempts, now, ttl, s)
    requires s'.now == now && s'.ttl == s.ttl && s'.nextId == s.nextId && s'.rots.Keys == s.rots.Keys
    requires forall t <- s'.rows :: t in s.rows && s'.rows[t].(replacedBy := None) == s.rows[t].(replacedBy := None)
    requires forall r <- s'.rots :: s'.rots[r] == s.rots[r] || StageTold(issues, ttl, attempts[r], s'.rots[r])
    ensures Told(issues, attempts, now, ttl, s')
  {
    assert issues + [] == issues;
    forall t <- s'.rows ensures RowTold(issues, ttl, s'.rows, t) { StillTold(issues, [], ttl, s.rows, s'.rows, t); }
  }

  lemma MarkTold(issues: seq<Issuance>, attempts: map<Rotation, Attempt>, now: int, ttl: int, s: State, r: Rotation,
                 fault: Fault)
    requires Told(issues, attempts, now, ttl, s) && CanMark(s, r)
    ensures Told(issues, attempts, now, ttl, MarkStep(s, r, fault))
  {
    assert StageTold(issues, ttl, attempts[r], s.rots[r]);
    QuietTold(issues, attempts, now, ttl, s, MarkStep(s, r, fault));
  }

  lemma RevokeTold(issues: seq<Issuance>, attempts: map<Rotation, Attempt>, now: int, ttl: int, s: State, r: Rotation,
                   fault: Fault)
    requires Told(issues, attempts, now, ttl, s) && CanRevoke(s, r)
    ensures Told(issues, attempts, now, ttl, RevokeStep(s, r, fault))
  {
    assert StageTold(issues, ttl, attempts[r], s.rots[r]);
    QuietTold(issues, attempts, now, ttl, s, RevokeStep(s, r, fault));
  }

  lemma RefusedTold(issues: seq<Issuance>, attempts: map<Rotation, Attempt>, now: int, ttl: int, s: State, r: Rotation)
    requires Told(issues, attempts, now, ttl, s) && CanIssue(s, r)
    ensures Told(issues, attempts, now, ttl, IssueStep(s, r, false))
  {
    QuietTold(issues, attempts, now, ttl, s, IssueStep(s, r, false));
  }

  ghost predicate Fewer(rows: Table, rows': Table) { forall t <- rows' :: t in rows && rows'[t] == rows[t] }

  lemma DeletesAreFewer(rows: Table, user: string, t: TokenId, now: int)
    ensures Fewer(rows, DeleteByUser(rows, user)) && Fewer(rows, DeleteByHash(rows, t)) && Fewer(rows, Purge(rows, now))
  {}

  lemma RemoveTold(issues: seq<Issuance>, attempts: map<Rotation, Attempt>, now: int, ttl: int, s: State, rows: Table)
    requires Told(issues, attempts, now, ttl, s) && Fewer(s.rows, rows)
    ensures Told(issues, attempts, now, ttl, Remove(s, rows))
  {
    QuietTold(issues, attempts, now, ttl, s, Remove(s, rows));
  }

  lemma DropTold(issues: seq<Issuance>, attempts: map<Rotation, Attempt>, now: int, ttl: int, s: State, a: Action)
    requires Told(issues, attempts, now, ttl, s) && Enabled(s, a)
    requires a.DropExpired? || a.LogoutAll? || a.LogoutOne? || a.PurgeExpired?
    ensures Told(issues, attempts, now, ttl, Next(s, a))
  {
    match a
    case DropExpired(r, fault) =>
      var s' := s.(rots := s.rots[r := Ended]);
      QuietTold(issues, attempts, now, ttl, s, s');
      DeletesAreFewer(s.rows, "", s.rots[r].e, s.now);
      if !fault.NotApplied? { RemoveTold(issues, attempts, now, ttl, s', DeleteByHash(s.rows, s.rots[r].e)); }
    case LogoutAll(user) =>
      DeletesAreFewer(s.rows, user, 0, s.now);
      RemoveTold(issues, attempts, now, ttl, s, DeleteByUser(s.rows, user));
    case LogoutOne(t) =>
      DeletesAreFewer(s.rows, "", t, s.now);
      RemoveTold(issues, attempts, now, ttl, s, DeleteByHash(s.rows, t));
    case PurgeExpired =>
      DeletesAreFewer(s.rows, "", 0, s.now);
      RemoveTold(issues, attempts, now, ttl, s, Purge(s.rows, s.now));
  }

  lemma {:induction false} RunsAreTold(ttl: int, acts: seq<Action>, s: State)
    requires Run(ttl, acts, s)
    ensures Told(Issues(acts), Attempts(acts), Clock(acts), ttl, s)
    decreases |acts|
  {
    if acts != [] {
      var n := |acts| - 1;
      ExecSnoc(Init(ttl), acts);
      var p := Exec(Init(ttl), acts[..n]).value;
      RunsAreTold(ttl, acts[..n], p);
      StepTold(Issues(acts[..n]), Attempts(acts[..n]), Clock(acts[..n]), ttl, p, acts[n]);
    }
  }

  lemma StepTold(issues: seq<Issuance>, attempts: map<Rotation, Attempt>, now: int, ttl: int, s: State, a: Action)
    requires Told(issues, attempts, now, ttl, s) && Enabled(s, a)
    ensures var more := IssuedBy(issues, attempts, a, now);
            Told(issues + more,
                 match a case Begin(r, t, fp, loads) => attempts[r := Attempt(t, fp, loads, now)] case _ => attempts,
                 match a case Tick(to) => to case _ => now, ttl, Next(s, a))
  {
    assert issues + [] == issues;
    match a
    case Login(user, fp) =>
      if user != "" && fp != "" { LoginTold(issues, attempts, now, ttl, s, user, fp, s.nextId, false); }
    case Begin(r, t, fp, loads) => BeginTold(issues, attempts, now, ttl, s, r, t, fp, loads);
    case Issue(r, ok) =>
      if ok { IssueTold(issues, attempts, now, ttl, s, r); } else { RefusedTold(issues, attempts, now, ttl, s, r); }
    case Mark(r, fault) => MarkTold(issues, attempts, now, ttl, s, r, fault);
    case Revoke(r, fault) => RevokeTold(issues, attempts, now, ttl, s, r, fault);
    case Tick(to) =>
    case _ => DropTold(issues, attempts, now, ttl, s, a);
  }

  /* ---- what follows ---- */

  // Only its own fingerprint rotates a token, and only before it expires, measured against what the token
  // was issued with. The new token belongs to the same user and is bound to the same fingerprint.
  lemma WinnersAreEntitled(ttl: int, acts: seq<Action>, s: State, r: Rotation)
    requires Run(ttl, acts, s) && r in s.rots && s.rots[r].Won?
    ensures var (e, n) := (s.rots[r].e, s.rots[r].n);
            && r in Attempts(acts) && Entitled(Issues(acts), ttl, Attempts(acts)[r], e)
            && Successor(Issues(acts), e, n)
  {
    RunsAreTold(ttl, acts, s);
    assert StageTold(Issues(acts), ttl, Attempts(acts)[r], s.rots[r]);
  }

  ghost predicate BegunAt(acts: seq<Action>, r: Rotation, i: nat)
    requires r in Attempts(acts) && i < |acts|
  {
    var a := Attempts(acts)[r];
    acts[i] == Begin(r, a.t, a.fingerprint, a.loads) && a.at == Clock(acts[..i])
  }

  // An attempt is one Begin action, with the clock of its moment.
  lemma {:induction false} AttemptsAreBegun(ttl: int, acts: seq<Action>, s: State, r: Rotation)
    requires Run(ttl, acts, s) && r in Attempts(acts)
    ensures exists i | 0 <= i < |acts| :: BegunAt(acts, r, i)
    decreases |acts|
  {
    var n := |acts| - 1;
    ExecSnoc(Init(ttl), acts);
    var p := Exec(Init(ttl), acts[..n]).value;
    if acts[n].Begin? && acts[n].r == r {
      assert BegunAt(acts, r, n);
    } else {
      AttemptsAreBegun(ttl, acts[..n], p, r);
      var i :| 0 <= i < n && BegunAt(acts[..n], r, i);
      assert acts[..n][..i] == acts[..i];
      assert BegunAt(acts, r, i);
    }
  }

  lemma UserIsDeleted(rows: Table, user: string)
    ensures forall t :: t in DeleteByUser(rows, user) <==> t in rows && rows[t].user != user
    ensures forall t <- DeleteByUser(rows, user) :: DeleteByUser(rows, user)[t] == rows[t]
  {}

  // One that stays names one that has expired.
  ghost predicate Blocked(rows: Table, now: int) {
    exists p, t :: p in rows && t in rows && rows[p].expiresAt >= now && rows[p].replacedBy == Some(t)
                   && rows[t].expiresAt < now
  }

  lemma PurgeLeaves(rows: Table, now: int)
    ensures forall t :: t in Purge(rows, now) <==> t in rows && (Blocked(rows, now) || rows[t].expiresAt >= now)
  {
    var gone := Expired(rows, now);
    if p, t :| p in rows && t in rows && rows[p].expiresAt >= now && rows[p].replacedBy == Some(t)
               && rows[t].expiresAt < now {
      assert p !in gone && rows[p].replacedBy.value in gone;
    }
  }

  // The row goes with the action: a named user that logs out everywhere, an expired row that is purged unless
  // the foreign key forbids the purge, the one row a logout or an expired rotation deletes unless it is named.
  ghost predicate Goes(s: State, a: Action, t: TokenId)
    requires t in s.rows
  {
    match a
    case LogoutAll(user) => user != "" && s.rows[t].user == user
    case PurgeExpired => s.rows[t].expiresAt < s.now && !Blocked(s.rows, s.now)
    case LogoutOne(e) => e == t && !Referenced(s.rows, t)
    case DropExpired(r, fault) =>
      r in s.rots && s.rots[r] == ExpiredSeen(t) && !fault.NotApplied? && !Referenced(s.rows, t)
    case _ => false
  }

  lemma DeletionsExactly(s: State, a: Action, t: TokenId)
    requires Enabled(s, a) && (a.DropExpired? || a.LogoutAll? || a.LogoutOne? || a.PurgeExpired?)
    ensures t in Next(s, a).rows <==> t in s.rows && !Goes(s, a, t)
    ensures t in Next(s, a).rows ==> Next(s, a).rows[t] == s.rows[t]
  {
    match a
    case LogoutAll(user) => UserIsDeleted(s.rows, user);
    case PurgeExpired => PurgeLeaves(s.rows, s.now);
    case _ =>
  }

  // A revocation that reaches the database leaves no token of the user whose token was presented, and every
  // token of everybody else.
  lemma RevocationIsComplete(ttl: int, acts: seq<Action>, s: State, r: Rotation, fault: Fault)
    requires Run(ttl, acts, s) && CanRevoke(s, r) && !fault.NotApplied?
    ensures r in Attempts(acts) && Attempts(acts)[r].t < |Issues(acts)|
    ensures var (issues, rows) := (Issues(acts), Next(s, Revoke(r, fault)).rows);
            && (forall t :: t in rows <==>
                  t in s.rows && t < |issues| && issues[t].user != issues[Attempts(acts)[r].t].user)
            && forall t <- rows :: rows[t] == s.rows[t]
  {
    RunsAreTold(ttl, acts, s);
    assert StageTold(Issues(acts), ttl, Attempts(acts)[r], s.rots[r]);
    RevokeRows(s, r, fault);
    forall t | t in s.rows ensures RowTold(Issues(acts), ttl, s.rows, t) {}
  }

  lemma RevokeRows(s: State, r: Rotation, fault: Fault)
    requires CanRevoke(s, r) && !fault.NotApplied?
    ensures var rows := Next(s, Revoke(r, fault)).rows;
            && (forall t :: t in rows <==> t in s.rows && s.rows[t].user != s.rots[r].user)
            && forall t <- rows :: rows[t] == s.rows[t]
  {
    UserIsDeleted(s.rows, s.rots[r].user);
  }

  // No rotation is stuck: whatever it has to do next it can do, with every fault that may happen.
  lemma NextStepIsEnabled(ttl: int, acts: seq<Action>, s: State, r: Rotation, fault: Fault)
    requires Run(ttl, acts, s)
    ensures r !in s.rots ==> forall t, fp, loads :: Enabled(s, Begin(r, t, fp, loads))
    ensures r in s.rots ==>
              match s.rots[r]
              case Validated(_, _, _) => Enabled(s, Issue(r, fault.NoFault?))
              case Issued(_, _, _) => Enabled(s, Mark(r, fault))
              case MarkFailed(_, _, _) => Enabled(s, Revoke(r, fault))
              case ReuseSeen(_) => Enabled(s, Revoke(r, fault))
              case ExpiredSeen(_) => Enabled(s, DropExpired(r, fault))
              case _ => true
  {
    RunsKeepInv(ttl, acts, s);
    if r in s.rots { assert StageOk(s, r); }
  }
}
