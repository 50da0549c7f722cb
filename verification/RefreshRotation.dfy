/** Refresh-token rotation over the token table, with any number of rotations in flight. */
module RefreshRotation {
  import opened Wrappers

  // Each database statement is one atomic step. A raw token is identified with the id of its row (its hash is
  // unique and is looked up exactly). `replaced_by` is a foreign key into the same table, so a row that another
  // row names cannot be deleted on its own.

  type TokenId = nat
  type Rotation = nat

  datatype Row = Row(user: string, fingerprint: string, expiresAt: int, replacedBy: Option<TokenId>)

  type Table = map<TokenId, Row>

  /* ---- the database statements ---- */

  predicate Referenced(rows: Table, t: TokenId) {
    exists p <- rows :: p != t && rows[p].replacedBy == Some(t)
  }

  function Without(rows: Table, gone: set<TokenId>): Table {
    map t | t in rows && t !in gone :: rows[t]
  }

  function OfUser(rows: Table, user: string): set<TokenId> {
    set t | t in rows && rows[t].user == user
  }

  function DeleteByUser(rows: Table, user: string): Table {
    Without(rows, OfUser(rows, user))
  }

  function DeleteByHash(rows: Table, t: TokenId): Table {
    if Referenced(rows, t) then rows else Without(rows, {t})
  }

  function Expired(rows: Table, now: int): set<TokenId> {
    set t | t in rows && rows[t].expiresAt < now
  }

  function Purge(rows: Table, now: int): Table {
    var gone := Expired(rows, now);
    if exists p <- rows :: p !in gone && rows[p].replacedBy.Some? && rows[p].replacedBy.value in gone then rows
    else Without(rows, gone)
  }

  datatype MarkResult = Marked | NotMarked | Refused

  function MarkOutcome(rows: Table, e: TokenId, n: TokenId): MarkResult {
    if e !in rows || rows[e].replacedBy.Some? then NotMarked else if n in rows then Marked else Refused
  }

  function MarkReplaced(rows: Table, e: TokenId, n: TokenId): Table {
    if MarkOutcome(rows, e, n).Marked? then rows[e := rows[e].(replacedBy := Some(n))] else rows
  }

  /* ---- rotations as interleaved steps ---- */

  datatype Stage =
    | ReuseSeen(user: string)                              // presented token was already replaced
    | ExpiredSeen(e: TokenId)
    | Validated(e: TokenId, user: string, fingerprint: string)
    | Issued(e: TokenId, n: TokenId, user: string)         // new row inserted, mark still to run
    | MarkFailed(e: TokenId, n: TokenId, user: string)     // lost the race, revoke-all still to run
    | Lost(e: TokenId, n: TokenId, user: string)           // ended in a database error after inserting
    | Won(e: TokenId, n: TokenId)
    | Ended

  // A failing statement may or may not have taken effect.
  datatype Fault = NoFault | NotApplied | AppliedAnyway

  // family, owner and issuer record where each token ever issued came from, marks which token replaced
  // which; `tainted` holds every token that was deleted, and every token issued from a tainted one.
  datatype State = State(
    rows: Table, rots: map<Rotation, Stage>, nextId: TokenId, now: int, ttl: int,
    family: map<TokenId, nat>, owner: map<TokenId, string>,
    issuer: map<TokenId, Rotation>, marks: map<TokenId, TokenId>,
    tainted: set<TokenId>)

  datatype Action =
    | Login(user: string, fingerprint: string)
    | Begin(r: Rotation, t: TokenId, fingerprint: string, userLoads: bool)
    | Issue(r: Rotation, ok: bool)
    | Mark(r: Rotation, fault: Fault)
    | Revoke(r: Rotation, fault: Fault)
    | DropExpired(r: Rotation, fault: Fault)
    | LogoutAll(user: string)
    | LogoutOne(t: TokenId)
    | PurgeExpired
    | Tick(to: int)

  function Init(ttl: int): State { State(map[], map[], 0, 0, ttl, map[], map[], map[], map[], {}) }

  // Removing rows taints them.
  function Remove(s: State, rows: Table): State {
    s.(rows := rows, tainted := s.tainted + (s.rows.Keys - rows.Keys))
  }

  function Insert(s: State, user: string, fingerprint: string, family: nat, taint: bool): State {
    s.(rows := s.rows[s.nextId := Row(user, fingerprint, s.now + s.ttl, None)],
       family := s.family[s.nextId := family], owner := s.owner[s.nextId := user],
       tainted := if taint then s.tainted + {s.nextId} else s.tainted,
       nextId := s.nextId + 1)
  }

  // GetRefreshTokenByHash and the checks on the row it returned.
  function Check(rows: Table, now: int, t: TokenId, fingerprint: string, userLoads: bool): Stage {
    if fingerprint == "" || t !in rows then Ended
    else if rows[t].replacedBy.Some? then ReuseSeen(rows[t].user)
    else if now > rows[t].expiresAt then ExpiredSeen(t)
    else if rows[t].fingerprint != fingerprint || !userLoads then Ended
    else Validated(t, rows[t].user, fingerprint)
  }

  predicate CanIssue(s: State, r: Rotation) { r in s.rots && s.rots[r].Validated? && s.rots[r].e in s.family }

  predicate CanMark(s: State, r: Rotation) { r in s.rots && s.rots[r].Issued? }

  predicate CanRevoke(s: State, r: Rotation) { r in s.rots && (s.rots[r].MarkFailed? || s.rots[r].ReuseSeen?) }

  predicate Enabled(s: State, a: Action) {
    match a
    case Begin(r, _, _, _) => r !in s.rots
    case Issue(r, _) => CanIssue(s, r)
    case Mark(r, _) => CanMark(s, r)
    case Revoke(r, _) => CanRevoke(s, r)
    case DropExpired(r, _) => r in s.rots && s.rots[r].ExpiredSeen?
    case Tick(to) => s.now <= to
    case _ => true
  }

  function IssueStep(s: State, r: Rotation, ok: bool): State
    requires CanIssue(s, r)
  {
    var st := s.rots[r];
    if !ok then s.(rots := s.rots[r := Ended])
    else
      Insert(s, st.user, st.fingerprint, s.family[st.e], st.e in s.tainted)
        .(rots := s.rots[r := Issued(st.e, s.nextId, st.user)], issuer := s.issuer[s.nextId := r])
  }

  function MarkStep(s: State, r: Rotation, fault: Fault): State
    requires CanMark(s, r)
  {
    var st := s.rots[r];
    var rows := MarkReplaced(s.rows, st.e, st.n);
    var marks := if MarkOutcome(s.rows, st.e, st.n).Marked? then s.marks[st.e := st.n] else s.marks;
    var lost := Lost(st.e, st.n, st.user);
    match fault
    case NotApplied => s.(rots := s.rots[r := lost])
    case AppliedAnyway => s.(rows := rows, marks := marks, rots := s.rots[r := lost])
    case NoFault =>
      s.(rows := rows,
         marks := marks,
         rots := s.rots[r := match MarkOutcome(s.rows, st.e, st.n)
                             case Marked => Won(st.e, st.n)
                             case NotMarked => MarkFailed(st.e, st.n, st.user)
                             case Refused => lost])
  }

  function RevokeStep(s: State, r: Rotation, fault: Fault): State
    requires CanRevoke(s, r)
  {
    var st := s.rots[r];
    var s' := s.(rots := s.rots[r := if fault.NoFault? || st.ReuseSeen? then Ended else Lost(st.e, st.n, st.user)]);
    if fault.NotApplied? then s' else Remove(s', DeleteByUser(s.rows, st.user))
  }

  function Next(s: State, a: Action): State
    requires Enabled(s, a)
  {
    match a
    case Login(user, fp) => if user == "" || fp == "" then s else Insert(s, user, fp, s.nextId, false)
    case Begin(r, t, fp, userLoads) => s.(rots := s.rots[r := Check(s.rows, s.now, t, fp, userLoads)])
    case Issue(r, ok) => IssueStep(s, r, ok)
    case Mark(r, fault) => MarkStep(s, r, fault)
    case Revoke(r, fault) => RevokeStep(s, r, fault)
    case DropExpired(r, fault) =>
      var s' := s.(rots := s.rots[r := Ended]);
      if fault.NotApplied? then s' else Remove(s', DeleteByHash(s.rows, s.rots[r].e))
    case LogoutAll(user) => if user == "" then s else Remove(s, DeleteByUser(s.rows, user))
    case LogoutOne(t) => Remove(s, DeleteByHash(s.rows, t))
    case PurgeExpired => Remove(s, Purge(s.rows, s.now))
    case Tick(to) => s.(now := to)
  }

  function Exec(s: State, acts: seq<Action>): Option<State>
    decreases |acts|
  {
    if acts == [] then Some(s)
    else if !Enabled(s, acts[0]) then None
    else Exec(Next(s, acts[0]), acts[1..])
  }

  predicate Run(ttl: int, acts: seq<Action>, s: State) { Exec(Init(ttl), acts) == Some(s) }

  /* ---- invariants ---- */

  // The unreplaced tokens of a login family, and the rotations that inserted into it without having
  // won or cleaned up.
  function Live(rows: Table, family: map<TokenId, nat>, f: nat): set<TokenId> {
    set t | t in rows && rows[t].replacedBy.None? && t in family && family[t] == f
  }

  predicate Open(st: Stage) { st.Issued? || st.MarkFailed? || st.Lost? }

  function OpenIn(rots: map<Rotation, Stage>, family: map<TokenId, nat>, f: nat): set<Rotation> {
    set r | r in rots && Open(rots[r]) && rots[r].n in family && family[rots[r].n] == f
  }

  ghost predicate RowOk(s: State, t: TokenId)
    requires t in s.rows
  {
    && t in s.owner && s.rows[t].user == s.owner[t]
    && s.rows[t].replacedBy == (if t in s.marks then Some(s.marks[t]) else None)
    && match s.rows[t].replacedBy
       case Some(n) => n in s.rows && n != t && s.rows[n].user == s.rows[t].user
       case None => true
  }

  ghost predicate Knows(s: State, e: TokenId, user: string) { e in s.owner && s.owner[e] == user }

  ghost predicate Inserted(s: State, r: Rotation, e: TokenId, n: TokenId) {
    n in s.issuer && s.issuer[n] == r && n in s.family && e in s.family && n != e && s.family[n] == s.family[e]
  }

  ghost predicate StageOk(s: State, r: Rotation)
    requires r in s.rots
  {
    match s.rots[r]
    case Validated(e, user, _) => Knows(s, e, user)
    case Issued(e, n, user) => Knows(s, e, user) && Knows(s, n, user) && Inserted(s, r, e, n)
    case MarkFailed(e, n, user) => Knows(s, e, user) && Knows(s, n, user) && Inserted(s, r, e, n)
    case Lost(e, n, user) => Knows(s, e, user) && Knows(s, n, user) && Inserted(s, r, e, n)
    case Won(e, n) => e in s.owner && n in s.owner && Inserted(s, r, e, n) && e in s.marks && s.marks[e] == n
    case _ => true
  }

  ghost predicate TokenOk(s: State, t: TokenId)
    requires t in s.owner
  {
    && t < s.nextId && t in s.family && s.family[t] <= t && Knows(s, s.family[t], s.owner[t])
    && (t !in s.rows ==> t in s.tainted)
  }

  ghost predicate Base(s: State) {
    && s.family.Keys == s.owner.Keys && s.rows.Keys <= s.owner.Keys && s.tainted <= s.owner.Keys
        && s.issuer.Keys <= s.owner.Keys && s.marks.Keys <= s.owner.Keys
    && (forall t {:trigger TokenOk(s, t)} | t in s.owner :: TokenOk(s, t))
    && (forall t {:trigger RowOk(s, t)} | t in s.rows :: RowOk(s, t))
    && (forall r {:trigger StageOk(s, r)} | r in s.rots :: StageOk(s, r))
  }

  ghost predicate Counted(s: State) { forall f :: |Live(s.rows, s.family, f)| <= 1 + |OpenIn(s.rots, s.family, f)| }

  // Some rotation is still going to revoke every token of the user, or died on the way.
  ghost predicate WillRevoke(s: State, r: Rotation, user: string) {
    r in s.rots &&
    match s.rots[r]
    case Issued(e, _, u) => u == user && e !in s.rows
    case MarkFailed(_, _, u) => u == user
    case Lost(_, _, u) => u == user
    case _ => false
  }

  ghost predicate Doomed(s: State, user: string) { exists r :: WillRevoke(s, r, user) }

  ghost predicate TaintOk(s: State) { forall t <- s.rows :: t in s.tainted ==> Doomed(s, s.rows[t].user) }

  ghost predicate Inv(s: State) { Base(s) && Counted(s) && TaintOk(s) }

  lemma SubsetSize<T>(a: set<T>, b: set<T>)
    requires a <= b
    ensures |a| <= |b|
  {
    assert b == a + (b - a);
  }

  lemma CountedWhenSmaller(s: State, s': State)
    requires Counted(s)
    requires forall f ::
             && Live(s'.rows, s'.family, f) <= Live(s.rows, s.family, f)
             && OpenIn(s.rots, s.family, f) <= OpenIn(s'.rots, s'.family, f)
    ensures Counted(s')
  {
    forall f ensures |Live(s'.rows, s'.family, f)| <= 1 + |OpenIn(s'.rots, s'.family, f)| {
      SubsetSize(Live(s'.rows, s'.family, f), Live(s.rows, s.family, f));
      SubsetSize(OpenIn(s.rots, s.family, f), OpenIn(s'.rots, s'.family, f));
    }
  }

  // A witness for Doomed survives any step that keeps its stage and brings no deleted row back.
  lemma DoomedStays(s: State, s': State, user: string)
    requires Doomed(s, user)
    requires forall r <- s.rots :: Open(s.rots[r]) ==> r in s'.rots && s'.rots[r] == s.rots[r]
    requires forall t <- s'.rows :: t in s.rows || t >= s.nextId
    requires Base(s)
    ensures Doomed(s', user)
  {
    var r :| WillRevoke(s, r, user);
    assert StageOk(s, r) && TokenOk(s, s.rots[r].e);
    assert WillRevoke(s', r, user);
  }

  lemma TaintKept(s: State, s': State)
    requires Base(s) && TaintOk(s)
    requires forall r <- s.rots :: Open(s.rots[r]) ==> r in s'.rots && s'.rots[r] == s.rots[r]
    requires forall t <- s'.rows :: t in s.rows || t >= s.nextId
    requires forall t <- s'.rows ::
             t in s'.tainted ==> t in s.rows && t in s.tainted && s.rows[t].user == s'.rows[t].user
    ensures TaintOk(s')
  {
    forall t <- s'.rows | t in s'.tainted ensures Doomed(s', s'.rows[t].user) {
      DoomedStays(s, s', s.rows[t].user);
    }
  }

  // Deleting rows, whole users or unreferenced tokens, while every stage stays as it is.
  lemma RemoveKeepsInv(s: State, rows: Table)
    requires Inv(s)
    requires rows.Keys <= s.rows.Keys && forall t <- rows :: rows[t] == s.rows[t]
    requires Closed(rows)
    ensures Inv(Remove(s, rows))
  {
    var s' := Remove(s, rows);
    RemoveKeepsBase(s, rows);
    forall f
      ensures Live(s'.rows, s'.family, f) <= Live(s.rows, s.family, f)
              && OpenIn(s.rots, s.family, f) == OpenIn(s'.rots, s'.family, f)
    {}
    CountedWhenSmaller(s, s');
    TaintKept(s, s');
  }

  lemma RemoveKeepsBase(s: State, rows: Table)
    requires Base(s)
    requires rows.Keys <= s.rows.Keys && forall t <- rows :: rows[t] == s.rows[t]
    requires Closed(rows)
    ensures Base(Remove(s, rows))
  {
    var s' := Remove(s, rows);
    forall t <- s'.owner ensures TokenOk(s', t) { assert TokenOk(s, t); }
    forall t <- s'.rows ensures RowOk(s', t) { assert RowOk(s, t) && LinkOk(rows, t); }
    forall r <- s'.rots ensures StageOk(s', r) { assert StageOk(s, r); }
  }

  ghost predicate LinkOk(rows: Table, t: TokenId)
    requires t in rows
  {
    match rows[t].replacedBy
    case Some(n) => n in rows && n != t && rows[n].user == rows[t].user
    case None => true
  }

  ghost predicate Closed(rows: Table) { forall t {:trigger LinkOk(rows, t)} | t in rows :: LinkOk(rows, t) }

  // None of the three kinds of DELETE leaves a dangling replaced_by.
  lemma DeletesAreClosed(rows: Table, now: int, user: string, e: TokenId)
    requires Closed(rows)
    ensures Closed(DeleteByUser(rows, user)) && Closed(DeleteByHash(rows, e)) && Closed(Purge(rows, now))
  {
    forall t <- DeleteByUser(rows, user) ensures LinkOk(DeleteByUser(rows, user), t) { assert LinkOk(rows, t); }
    forall t <- DeleteByHash(rows, e) ensures LinkOk(DeleteByHash(rows, e), t) { assert LinkOk(rows, t); }
    forall t <- Purge(rows, now) ensures LinkOk(Purge(rows, now), t) { assert LinkOk(rows, t); }
  }

  lemma TableClosed(s: State)
    requires Base(s)
    ensures Closed(s.rows)
  {
    forall t <- s.rows ensures LinkOk(s.rows, t) { assert RowOk(s, t); }
  }

  lemma InsertIsClosed(rows: Table, n: TokenId, row: Row)
    requires Closed(rows) && n !in rows && row.replacedBy.None?
    ensures Closed(rows[n := row])
  {
    var rows' := rows[n := row];
    forall t <- rows' ensures LinkOk(rows', t) { if t != n { assert LinkOk(rows, t); } }
  }

  lemma MarkIsClosed(rows: Table, e: TokenId, n: TokenId)
    requires Closed(rows) && n in rows && n != e && (e in rows ==> rows[e].user == rows[n].user)
    ensures Closed(MarkReplaced(rows, e, n))
  {
    var rows' := MarkReplaced(rows, e, n);
    forall t <- rows' ensures LinkOk(rows', t) { assert LinkOk(rows, t); }
  }

  // A stage change that touches neither the table nor the open rotations.
  lemma QuietKeepsInv(s: State, r: Rotation, st: Stage)
    requires Inv(s) && (r in s.rots ==> !Open(s.rots[r])) && !Open(st) && !st.Won?
    requires st.Validated? ==> Knows(s, st.e, st.user)
    ensures Inv(s.(rots := s.rots[r := st]))
  {
    var s' := s.(rots := s.rots[r := st]);
    QuietKeepsBase(s, r, st);
    forall f
      ensures Live(s'.rows, s'.family, f) == Live(s.rows, s.family, f)
              && OpenIn(s.rots, s.family, f) == OpenIn(s'.rots, s'.family, f)
    {}
    CountedWhenSmaller(s, s');
    TaintKept(s, s');
  }

  lemma QuietKeepsBase(s: State, r: Rotation, st: Stage)
    requires Base(s) && !Open(st) && !st.Won?
    requires st.Validated? ==> Knows(s, st.e, st.user)
    ensures Base(s.(rots := s.rots[r := st]))
  {
    StageKeepsBase(s, r, st);
  }

  lemma StageKeepsBase(s: State, r: Rotation, st: Stage)
    requires Base(s) && StageOk(s.(rots := s.rots[r := st]), r)
    ensures Base(s.(rots := s.rots[r := st]))
  {
    var s' := s.(rots := s.rots[r := st]);
    forall t <- s'.owner ensures TokenOk(s', t) { assert TokenOk(s, t); }
    forall t <- s'.rows ensures RowOk(s', t) { assert RowOk(s, t); }
    StageKeepsStages(s, r, st);
  }

  lemma StageKeepsStages(s: State, r: Rotation, st: Stage)
    requires Base(s) && StageOk(s.(rots := s.rots[r := st]), r)
    ensures var s' := s.(rots := s.rots[r := st]); forall q <- s'.rots :: StageOk(s', q)
  {
    var s' := s.(rots := s.rots[r := st]);
    forall q <- s'.rots ensures StageOk(s', q) { if q != r { assert StageOk(s, q); } }
  }

  lemma Unused(s: State)
    requires Base(s)
    ensures s.nextId !in s.owner && s.nextId !in s.family && s.nextId !in s.rows && s.nextId !in s.tainted
            && s.nextId !in s.issuer && s.nextId !in s.marks
  {
    assert s.nextId in s.owner ==> TokenOk(s, s.nextId);
  }

  lemma InsertKeepsBase(s: State, user: string, fp: string, family: nat, taint: bool)
    requires Base(s)
    requires family == s.nextId || (Knows(s, family, user) && family < s.nextId)
    ensures Base(Insert(s, user, fp, family, taint))
  {
    Unused(s);
    InsertKeepsTokens(s, user, fp, family, taint);
    InsertKeepsRows(s, user, fp, family, taint);
    InsertKeepsStages(s, user, fp, family, taint);
  }

  lemma InsertKeepsTokens(s: State, user: string, fp: string, family: nat, taint: bool)
    requires Base(s)
    requires family == s.nextId || (Knows(s, family, user) && family < s.nextId)
    ensures var s' := Insert(s, user, fp, family, taint);
            forall t {:trigger TokenOk(s', t)} | t in s'.owner :: TokenOk(s', t)
  {
    Unused(s);
    var s' := Insert(s, user, fp, family, taint);
    forall t <- s'.owner ensures TokenOk(s', t) { if t != s.nextId { assert TokenOk(s, t); } }
  }

  lemma InsertKeepsRows(s: State, user: string, fp: string, family: nat, taint: bool)
    requires Base(s)
    ensures var s' := Insert(s, user, fp, family, taint);
            forall t {:trigger RowOk(s', t)} | t in s'.rows :: RowOk(s', t)
  {
    Unused(s);
    var s' := Insert(s, user, fp, family, taint);
    forall t <- s'.rows ensures RowOk(s', t) { if t != s.nextId { assert RowOk(s, t); } }
  }

  lemma InsertKeepsStages(s: State, user: string, fp: string, family: nat, taint: bool)
    requires Base(s)
    ensures var s' := Insert(s, user, fp, family, taint);
            forall r {:trigger StageOk(s', r)} | r in s'.rots :: StageOk(s', r)
  {
    Unused(s);
    var s' := Insert(s, user, fp, family, taint);
    forall r <- s'.rots ensures StageOk(s', r) { assert StageOk(s, r); }
  }

  lemma LiveAfterInsert(rows: Table, family: map<TokenId, nat>, t: TokenId, row: Row, g: nat, f: nat)
    requires t !in rows && t !in family && row.replacedBy.None?
    ensures Live(rows[t := row], family[t := g], f) == Live(rows, family, f) + if f == g then {t} else {}
  {}

  lemma OpenAfterInsert(s: State, g: nat, f: nat)
    requires Base(s)
    ensures OpenIn(s.rots, s.family[s.nextId := g], f) == OpenIn(s.rots, s.family, f)
  {
    Unused(s);
    forall r <- s.rots | Open(s.rots[r])
      ensures s.rots[r].n in s.family && s.rots[r].n != s.nextId
    {
      assert StageOk(s, r);
    }
  }

  lemma OpenAfterStage(rots: map<Rotation, Stage>, family: map<TokenId, nat>, r: Rotation, st: Stage, f: nat)
    ensures OpenIn(rots[r := st], family, f)
            == OpenIn(rots, family, f) - {r} + if Open(st) && st.n in family && family[st.n] == f then {r} else {}
  {}

  lemma LoginKeepsInv(s: State, user: string, fp: string)
    requires Inv(s)
    ensures Inv(Insert(s, user, fp, s.nextId, false))
  {
    var s' := Insert(s, user, fp, s.nextId, false);
    InsertKeepsBase(s, user, fp, s.nextId, false);
    Unused(s);
    LoginCounted(s, user, fp);
    TaintKept(s, s');
  }

  lemma LoginCounted(s: State, user: string, fp: string)
    requires Base(s) && Counted(s)
    ensures Counted(Insert(s, user, fp, s.nextId, false))
  {
    var s' := Insert(s, user, fp, s.nextId, false);
    var n := s.nextId;
    Unused(s);
    forall f ensures |Live(s'.rows, s'.family, f)| <= 1 + |OpenIn(s'.rots, s'.family, f)| {
      LiveAfterInsert(s.rows, s.family, n, s'.rows[n], n, f);
      OpenAfterInsert(s, n, f);
      if f == n {
        forall t ensures t !in Live(s.rows, s.family, f) { assert t in s.owner ==> TokenOk(s, t); }
      }
    }
  }

  lemma IssueKeepsInv(s: State, r: Rotation)
    requires Inv(s) && CanIssue(s, r)
    ensures Inv(IssueStep(s, r, true))
  {
    IssueKeepsBase(s, r);
    IssueCounted(s, r);
    IssueTainted(s, r);
  }

  lemma IssuerKeepsStages(s: State, n: TokenId, r: Rotation)
    requires Base(s) && n !in s.issuer
    ensures var s' := s.(issuer := s.issuer[n := r]);
            forall q {:trigger StageOk(s', q)} | q in s'.rots :: StageOk(s', q)
  {
    var s' := s.(issuer := s.issuer[n := r]);
    forall q <- s'.rots ensures StageOk(s', q) { assert StageOk(s, q); }
  }

  lemma IssuerKeepsBase(s: State, n: TokenId, r: Rotation)
    requires Base(s) && n in s.owner && n !in s.issuer
    ensures Base(s.(issuer := s.issuer[n := r]))
  {
    var s' := s.(issuer := s.issuer[n := r]);
    IssuerKeepsStages(s, n, r);
    forall t <- s'.owner ensures TokenOk(s', t) { assert TokenOk(s, t); }
    forall t <- s'.rows ensures RowOk(s', t) { assert RowOk(s, t); }
  }

  lemma IssueKeepsBase(s: State, r: Rotation)
    requires Base(s) && CanIssue(s, r)
    ensures Base(IssueStep(s, r, true))
  {
    var st := s.rots[r];
    assert StageOk(s, r) && TokenOk(s, st.e);
    assert TokenOk(s, s.family[st.e]);
    Unused(s);
    var s1 := Insert(s, st.user, st.fingerprint, s.family[st.e], st.e in s.tainted);
    InsertKeepsBase(s, st.user, st.fingerprint, s.family[st.e], st.e in s.tainted);
    var s2 := s1.(issuer := s.issuer[s.nextId := r]);
    IssuerKeepsBase(s1, s.nextId, r);
    StageKeepsBase(s2, r, Issued(st.e, s.nextId, st.user));
  }

  lemma IssueTainted(s: State, r: Rotation)
    requires Base(s) && TaintOk(s) && CanIssue(s, r)
    ensures TaintOk(IssueStep(s, r, true))
  {
    var st := s.rots[r];
    var n := s.nextId;
    var s' := IssueStep(s, r, true);
    Unused(s);
    assert StageOk(s, r);
    forall t <- s'.rows | t in s'.tainted ensures Doomed(s', s'.rows[t].user) {
      if st.e !in s.rows && t == n {
        assert WillRevoke(s', r, st.user);
      } else {
        var t0 := if t == n then st.e else t;
        assert RowOk(s, t0);
        DoomedStays(s, s', s.rows[t0].user);
      }
    }
  }

  lemma IssueCounted(s: State, r: Rotation)
    requires Base(s) && Counted(s) && CanIssue(s, r)
    ensures Counted(IssueStep(s, r, true))
  {
    var s' := IssueStep(s, r, true);
    var n, g := s.nextId, s.family[s.rots[r].e];
    Unused(s);
    forall f ensures |Live(s'.rows, s'.family, f)| <= 1 + |OpenIn(s'.rots, s'.family, f)| {
      LiveAfterInsert(s.rows, s.family, n, s'.rows[n], g, f);
      OpenAfterInsert(s, g, f);
      OpenAfterStage(s.rots, s'.family, r, s'.rots[r], f);
      assert r !in OpenIn(s.rots, s.family, f);
      assert n !in Live(s.rows, s.family, f);
    }
  }

  lemma MarkKeepsInv(s: State, r: Rotation, fault: Fault)
    requires Inv(s) && CanMark(s, r)
    ensures Inv(MarkStep(s, r, fault))
  {
    MarkKeepsBase(s, r, fault);
    MarkCounted(s, r, fault);
    MarkTainted(s, r, fault);
  }

  lemma MarkTainted(s: State, r: Rotation, fault: Fault)
    requires Base(s) && TaintOk(s) && CanMark(s, r)
    ensures TaintOk(MarkStep(s, r, fault))
  {
    var s' := MarkStep(s, r, fault);
    forall t <- s'.rows | t in s'.tainted ensures Doomed(s', s'.rows[t].user) {
      var q :| WillRevoke(s, q, s.rows[t].user);
      assert WillRevoke(s', q, s.rows[t].user);
    }
  }

  // What a mark that took effect does to the table and to `marks`.
  function Applied(s: State, e: TokenId, n: TokenId): State {
    s.(rows := MarkReplaced(s.rows, e, n),
       marks := if MarkOutcome(s.rows, e, n).Marked? then s.marks[e := n] else s.marks)
  }

  lemma MarkKeepsRows(s: State, e: TokenId, n: TokenId)
    requires Base(s) && n != e && e in s.owner && n in s.owner && s.owner[e] == s.owner[n]
    ensures var s' := Applied(s, e, n); forall t {:trigger RowOk(s', t)} | t in s'.rows :: RowOk(s', t)
  {
    var s' := Applied(s, e, n);
    assert e in s.rows ==> RowOk(s, e);
    assert n in s.rows ==> RowOk(s, n);
    forall t <- s'.rows ensures RowOk(s', t) { assert RowOk(s, t); }
  }

  lemma MarkKeepsStages(s: State, e: TokenId, n: TokenId)
    requires Base(s) && e in s.owner
    ensures var s' := Applied(s, e, n); forall q {:trigger StageOk(s', q)} | q in s'.rots :: StageOk(s', q)
  {
    var s' := Applied(s, e, n);
    assert e in s.rows ==> RowOk(s, e);
    forall q <- s'.rots ensures StageOk(s', q) { assert StageOk(s, q); }
  }

  lemma MarkRowsKeepsBase(s: State, e: TokenId, n: TokenId)
    requires Base(s) && n != e && e in s.owner && n in s.owner && s.owner[e] == s.owner[n]
    ensures Base(Applied(s, e, n))
  {
    var s' := Applied(s, e, n);
    MarkKeepsRows(s, e, n);
    MarkKeepsStages(s, e, n);
    forall t <- s'.owner ensures TokenOk(s', t) { assert TokenOk(s, t); }
  }

  lemma MarkKeepsBase(s: State, r: Rotation, fault: Fault)
    requires Base(s) && CanMark(s, r)
    ensures Base(MarkStep(s, r, fault))
  {
    var s' := MarkStep(s, r, fault);
    assert StageOk(s, r);
    MarkRowsKeepsBase(s, s.rots[r].e, s.rots[r].n);
    StageKeepsBase(if fault.NotApplied? then s else Applied(s, s.rots[r].e, s.rots[r].n), r, s'.rots[r]);
  }

  lemma LiveAfterMark(rows: Table, family: map<TokenId, nat>, e: TokenId, n: TokenId, f: nat)
    requires e in family
    ensures Live(MarkReplaced(rows, e, n), family, f) <= Live(rows, family, f)
    ensures MarkOutcome(rows, e, n).Marked? && f == family[e] ==>
              e in Live(rows, family, f) && Live(MarkReplaced(rows, e, n), family, f) == Live(rows, family, f) - {e}
  {}

  lemma MarkCounted(s: State, r: Rotation, fault: Fault)
    requires Base(s) && Counted(s) && CanMark(s, r)
    ensures Counted(MarkStep(s, r, fault))
  {
    var s' := MarkStep(s, r, fault);
    forall f
      ensures |Live(s'.rows, s'.family, f)| <= 1 + |OpenIn(s'.rots, s'.family, f)|
    {
      MarkCountedIn(s, r, fault, f);
    }
  }

  lemma MarkCountedIn(s: State, r: Rotation, fault: Fault, f: nat)
    requires Base(s) && Counted(s) && CanMark(s, r)
    ensures var s' := MarkStep(s, r, fault); |Live(s'.rows, s'.family, f)| <= 1 + |OpenIn(s'.rots, s'.family, f)|
  {
    var st := s.rots[r];
    var s' := MarkStep(s, r, fault);
    assert StageOk(s, r);
    OpenAfterStage(s.rots, s.family, r, s'.rots[r], f);
    LiveAfterMark(s.rows, s.family, st.e, st.n, f);
    if s'.rots[r].Won? && f == s.family[st.e] {
      assert r in OpenIn(s.rots, s.family, f);
    } else {
      SubsetSize(Live(s'.rows, s.family, f), Live(s.rows, s.family, f));
      SubsetSize(OpenIn(s.rots, s.family, f), OpenIn(s'.rots, s.family, f));
    }
  }

  lemma RevokeKeepsInv(s: State, r: Rotation, fault: Fault)
    requires Inv(s) && CanRevoke(s, r)
    ensures Inv(RevokeStep(s, r, fault))
  {
    RevokeKeepsBase(s, r, fault);
    RevokeCounted(s, r, fault);
    RevokeTainted(s, r, fault);
  }

  lemma RevokeTainted(s: State, r: Rotation, fault: Fault)
    requires Base(s) && TaintOk(s) && CanRevoke(s, r)
    ensures TaintOk(RevokeStep(s, r, fault))
  {
    var s' := RevokeStep(s, r, fault);
    forall t <- s'.rows | t in s'.tainted ensures Doomed(s', s'.rows[t].user) {
      var q :| WillRevoke(s, q, s.rows[t].user);
      assert WillRevoke(s', q, s.rows[t].user);
    }
  }

  lemma RevokeKeepsBase(s: State, r: Rotation, fault: Fault)
    requires Base(s) && CanRevoke(s, r)
    ensures Base(RevokeStep(s, r, fault))
  {
    var st := s.rots[r];
    var s1 := s.(rots := RevokeStep(s, r, fault).rots);
    assert StageOk(s, r);
    StageKeepsBase(s, r, s1.rots[r]);
    TableClosed(s1); DeletesAreClosed(s1.rows, s1.now, st.user, 0);
    if !fault.NotApplied? { RemoveKeepsBase(s1, DeleteByUser(s.rows, st.user)); }
  }

  lemma RevokeCounted(s: State, r: Rotation, fault: Fault)
    requires Base(s) && Counted(s) && CanRevoke(s, r)
    ensures Counted(RevokeStep(s, r, fault))
  {
    var st := s.rots[r];
    var s' := RevokeStep(s, r, fault);
    assert StageOk(s, r);
    forall f ensures |Live(s'.rows, s'.family, f)| <= 1 + |OpenIn(s'.rots, s'.family, f)| {
      OpenAfterStage(s.rots, s.family, r, s'.rots[r], f);
      if st.MarkFailed? && fault.NoFault? && f == s.family[st.n] {
        FamilyOfUser(s, s', st.n, st.user);
      } else {
        SubsetSize(Live(s'.rows, s.family, f), Live(s.rows, s.family, f));
        SubsetSize(OpenIn(s.rots, s.family, f), OpenIn(s'.rots, s.family, f));
      }
    }
  }

  // A family belongs to one user, so revoking the user empties it.
  lemma FamilyOfUser(s: State, s': State, n: TokenId, user: string)
    requires Base(s) && Knows(s, n, user) && n in s.family && s'.rows == DeleteByUser(s.rows, user)
    ensures Live(s'.rows, s.family, s.family[n]) == {}
  {
    assert TokenOk(s, n);
    forall t ensures t !in Live(s'.rows, s.family, s.family[n]) {
      assert t in s.rows ==> RowOk(s, t) && TokenOk(s, t);
    }
  }

  lemma TickKeepsInv(s: State, to: int)
    requires Inv(s)
    ensures Inv(s.(now := to))
  {
    var s' := s.(now := to);
    forall t <- s'.owner ensures TokenOk(s', t) { assert TokenOk(s, t); }
    forall t <- s'.rows ensures RowOk(s', t) { assert RowOk(s, t); }
    forall q <- s'.rots ensures StageOk(s', q) { assert StageOk(s, q); }
    forall f
      ensures Live(s'.rows, s'.family, f) == Live(s.rows, s.family, f)
              && OpenIn(s.rots, s.family, f) == OpenIn(s'.rots, s'.family, f)
    {}
    CountedWhenSmaller(s, s');
    TaintKept(s, s');
  }

  lemma StepKeepsInv(s: State, a: Action)
    requires Inv(s) && Enabled(s, a)
    ensures Inv(Next(s, a))
  {
    match a
    case Login(user, fp) => if user != "" && fp != "" { LoginKeepsInv(s, user, fp); }
    case Begin(r, t, fp, loads) =>
      if t in s.rows { assert RowOk(s, t); }
      QuietKeepsInv(s, r, Check(s.rows, s.now, t, fp, loads));
    case Issue(r, ok) => if ok { IssueKeepsInv(s, r); } else { QuietKeepsInv(s, r, Ended); }
    case Mark(r, fault) => MarkKeepsInv(s, r, fault);
    case Revoke(r, fault) => RevokeKeepsInv(s, r, fault);
    case DropExpired(r, fault) =>
      QuietKeepsInv(s, r, Ended);
      var s' := s.(rots := s.rots[r := Ended]);
      TableClosed(s'); DeletesAreClosed(s'.rows, s'.now, "", s.rots[r].e);
      if !fault.NotApplied? { RemoveKeepsInv(s', DeleteByHash(s.rows, s.rots[r].e)); }
    case LogoutAll(user) =>
      TableClosed(s);
      DeletesAreClosed(s.rows, s.now, user, 0);
      RemoveKeepsInv(s, DeleteByUser(s.rows, user));
    case LogoutOne(t) =>
      TableClosed(s);
      DeletesAreClosed(s.rows, s.now, "", t);
      RemoveKeepsInv(s, DeleteByHash(s.rows, t));
    case PurgeExpired =>
      TableClosed(s);
      DeletesAreClosed(s.rows, s.now, "", 0);
      RemoveKeepsInv(s, Purge(s.rows, s.now));
    case Tick(to) => TickKeepsInv(s, to);
  }

  lemma {:induction false} ExecKeepsInv(s: State, acts: seq<Action>, t: State)
    requires Inv(s) && Exec(s, acts) == Some(t)
    ensures Inv(t)
    decreases |acts|
  {
    if acts != [] {
      StepKeepsInv(s, acts[0]);
      ExecKeepsInv(Next(s, acts[0]), acts[1..], t);
    }
  }

  lemma RunsKeepInv(ttl: int, acts: seq<Action>, s: State)
    requires Run(ttl, acts, s)
    ensures Inv(s)
  {
    ExecKeepsInv(Init(ttl), acts, s);
  }

  /* ---- what every interleaving guarantees ---- */

  // A refresh token is rotated successfully at most once, even across database faults.
  lemma AtMostOneWinner(ttl: int, acts: seq<Action>, s: State, q: Rotation, r: Rotation)
    requires Run(ttl, acts, s)
    requires q in s.rots && r in s.rots && s.rots[q].Won? && s.rots[r].Won? && s.rots[q].e == s.rots[r].e
    ensures q == r
  {
    RunsKeepInv(ttl, acts, s);
    assert StageOk(s, q) && StageOk(s, r);
  }

  // The unreplaced tokens of a login family never exceed one plus the rotations that inserted a token
  // and have neither won nor cleaned up (in flight, or ended by a database error).
  lemma LiveTokensBounded(ttl: int, acts: seq<Action>, s: State, f: nat)
    requires Run(ttl, acts, s)
    ensures |Live(s.rows, s.family, f)| <= 1 + |OpenIn(s.rots, s.family, f)|
  {
    RunsKeepInv(ttl, acts, s);
  }

  // At quiescence without database errors each login family has at most one unreplaced token, and
  // nothing survives that was issued, directly or not, from a token that had already been deleted.
  lemma QuiescentTable(ttl: int, acts: seq<Action>, s: State, f: nat)
    requires Run(ttl, acts, s)
    requires forall r <- s.rots :: !Open(s.rots[r])
    ensures |Live(s.rows, s.family, f)| <= 1
    ensures s.rows.Keys !! s.tainted
  {
    RunsKeepInv(ttl, acts, s);
    assert OpenIn(s.rots, s.family, f) == {};
    forall t <- s.rows ensures t !in s.tainted {
      assert forall r :: !WillRevoke(s, r, s.rows[t].user);
    }
  }

  // replaced_by always names a row of the same user that is still there, so no statement that a
  // rotation issues is refused by the foreign key except the deletion of a referenced row.
  lemma ForeignKeyHolds(ttl: int, acts: seq<Action>, s: State, t: TokenId)
    requires Run(ttl, acts, s) && t in s.rows && s.rows[t].replacedBy.Some?
    ensures s.rows[t].replacedBy.value in s.rows && s.rows[s.rows[t].replacedBy.value].user == s.rows[t].user
  {
    RunsKeepInv(ttl, acts, s);
    assert RowOk(s, t);
  }

  // Revoking a single token removes it exactly when no other row was replaced by it: while the row it
  // was rotated from is still in the table, the statement is refused and the token stays usable.
  lemma SingleRevocation(ttl: int, acts: seq<Action>, s: State, t: TokenId)
    requires Run(ttl, acts, s) && t in s.rows
    ensures t !in Next(s, LogoutOne(t)).rows <==> !Referenced(s.rows, t)
    ensures forall r <- s.rots ::
            s.rots[r].Won? && s.rots[r].n == t && s.rots[r].e in s.rows ==> t in Next(s, LogoutOne(t)).rows
  {
    RunsKeepInv(ttl, acts, s);
    forall r <- s.rots | s.rots[r].Won? && s.rots[r].n == t && s.rots[r].e in s.rows ensures Referenced(s.rows, t) {
      assert StageOk(s, r) && RowOk(s, s.rots[r].e);
    }
  }

  const ONE_ROTATION: seq<Action> := [Login("u", "f"), Begin(0, 0, "f", true), Issue(0, true), Mark(0, NoFault),
                                      LogoutOne(1)]

  lemma ExecCons(s: State, a: Action, rest: seq<Action>)
    requires Enabled(s, a)
    ensures Exec(s, [a] + rest) == Exec(Next(s, a), rest)
  {
    assert ([a] + rest)[1..] == rest;
  }

  // Log in and rotate up to the point where the new row is inserted.
  lemma RotationUnderWay(rest: seq<Action>) returns (s: State)
    ensures Exec(Init(10), [Login("u", "f")] + ([Begin(0, 0, "f", true)] + ([Issue(0, true)] + rest))) == Exec(s, rest)
    ensures s.rots == map[0 := Issued(0, 1, "u")] && s.rows.Keys == {0, 1}
    ensures s.rows[0].replacedBy.None? && s.rows[1].replacedBy.None?
  {
    var s0 := Init(10);
    var s1 := Next(s0, Login("u", "f"));
    ExecCons(s0, Login("u", "f"), [Begin(0, 0, "f", true)] + ([Issue(0, true)] + rest));
    var s2 := Next(s1, Begin(0, 0, "f", true));
    ExecCons(s1, Begin(0, 0, "f", true), [Issue(0, true)] + rest);
    s := Next(s2, Issue(0, true));
    ExecCons(s2, Issue(0, true), rest);
  }

  // The shortest such run: log in, rotate once, revoke the new token; it is still there, unreplaced.
  lemma SingleRevocationCanFail() returns (s: State)
    ensures Run(10, ONE_ROTATION, s)
    ensures 1 in s.rows && s.rows[1].replacedBy.None? && s.rots[0] == Won(0, 1)
  {
    var rest := [Mark(0, NoFault)] + ([LogoutOne(1)] + []);
    var s3 := RotationUnderWay(rest);
    var s4 := Next(s3, Mark(0, NoFault));
    assert s4.rows[0].replacedBy == Some(1);
    ExecCons(s3, Mark(0, NoFault), [LogoutOne(1)] + []);
    s := Next(s4, LogoutOne(1));
    assert Referenced(s4.rows, 1);
    ExecCons(s4, LogoutOne(1), []);
    assert ONE_ROTATION == [Login("u", "f")] + ([Begin(0, 0, "f", true)] + ([Issue(0, true)] + rest));
  }

  /* ---- the table as an object, and RotateRefresh run on its own ---- */

  datatype RotateError = Unauthorized | Reuse

  class TokenStore {
    var rows: Table
    var nextId: TokenId
    const ttl: int

    constructor (ttl: int)
      ensures rows == map[] && nextId == 0 && this.ttl == ttl
    {
      rows, nextId, this.ttl := map[], 0, ttl;
    }

    ghost predicate Valid()
      reads this
    {
      (forall t <- rows :: t < nextId) && Closed(rows)
    }

    method InsertRefreshToken(user: string, fingerprint: string, now: int) returns (id: TokenId)
      requires Valid()
      modifies this
      ensures Valid() && id == old(nextId) && id !in old(rows) && nextId == id + 1
      ensures rows == old(rows)[id := Row(user, fingerprint, now + ttl, None)]
    {
      id := nextId;
      InsertIsClosed(rows, id, Row(user, fingerprint, now + ttl, None));
      rows := rows[id := Row(user, fingerprint, now + ttl, None)];
      nextId := nextId + 1;
    }

    method MarkRefreshTokenReplaced(e: TokenId, n: TokenId) returns (ok: bool)
      requires Valid() && n in rows && n != e && (e in rows ==> rows[e].user == rows[n].user)
      modifies this`rows
      ensures Valid() && rows == MarkReplaced(old(rows), e, n)
      ensures ok <==> MarkOutcome(old(rows), e, n).Marked?
    {
      MarkIsClosed(rows, e, n);
      ok := e in rows && rows[e].replacedBy.None?;
      if ok {
        rows := rows[e := rows[e].(replacedBy := Some(n))];
      }
    }

    // A rotation wins exactly when the token is present, unreplaced, unexpired, presented with its own
    // non-empty fingerprint by a user that loads, and no concurrent rotation of it marks first (`lostRace`).
    // Then the table gains one token and the old one names it.  Presenting a replaced token, or losing
    // the race, costs the user every token.
    method RotateRefresh(t: TokenId, fingerprint: string, userLoads: bool, now: int, lostRace: bool)
      returns (result: Result<TokenId, RotateError>)
      requires Valid()
      modifies this
      ensures Valid()
      ensures result.Success? <==> Acceptable(old(rows), t, fingerprint, userLoads, now) && !lostRace
      ensures result.Success? ==>
                var n := result.value;
                && n !in old(rows) && rows.Keys == old(rows).Keys + {n}
                && rows[n] == Row(old(rows)[t].user, fingerprint, now + ttl, None)
                && rows[t] == old(rows)[t].(replacedBy := Some(n))
                && forall p <- old(rows) :: p != t ==> rows[p] == old(rows)[p]
      ensures result == Failure(Reuse) <==>
                && fingerprint != "" && t in old(rows)
                && (|| old(rows)[t].replacedBy.Some?
                    || (Acceptable(old(rows), t, fingerprint, userLoads, now) && lostRace))
      ensures result == Failure(Reuse) ==>
                forall p :: p in rows <==> p in old(rows) && old(rows)[p].user != old(rows)[t].user
      ensures result == Failure(Reuse) ==> forall p <- rows :: rows[p] == old(rows)[p]
      ensures result == Failure(Unauthorized) ==>
                rows == if fingerprint != "" && t in old(rows) && now > old(rows)[t].expiresAt
                        then DeleteByHash(old(rows), t) else old(rows)
    {
      if fingerprint == "" || t !in rows { return Failure(Unauthorized); }
      DeletesAreClosed(rows, now, rows[t].user, t);
      var existing := rows[t];
      if existing.replacedBy.Some? {
        rows := DeleteByUser(rows, existing.user);
        return Failure(Reuse);
      }
      if now > existing.expiresAt {
        rows := DeleteByHash(rows, t);
        return Failure(Unauthorized);
      }
      if existing.fingerprint != fingerprint || !userLoads { return Failure(Unauthorized); }
      result := IssueAndMark(t, fingerprint, now, lostRace);
    }

    method IssueAndMark(t: TokenId, fingerprint: string, now: int, lostRace: bool)
        returns (result: Result<TokenId, RotateError>)
      requires Valid() && t in rows && rows[t].replacedBy.None?
      modifies this
      ensures Valid()
      ensures result == if lostRace then Failure(Reuse) else Success(old(nextId))
      ensures !lostRace ==>
                rows == old(rows)[old(nextId) := Row(old(rows)[t].user, fingerprint, now + ttl, None)]
                                 [t := old(rows)[t].(replacedBy := Some(old(nextId)))]
      ensures lostRace ==> rows == DeleteByUser(old(rows), old(rows)[t].user)
    {
      var user := rows[t].user;
      var n := InsertRefreshToken(user, fingerprint, now);
      if lostRace {
        var other := InsertRefreshToken(user, fingerprint, now);
        var won := MarkRefreshTokenReplaced(t, other);
      }
      var ok := MarkRefreshTokenReplaced(t, n);
      if !ok {
        DeletesAreClosed(rows, now, user, t);
        rows := DeleteByUser(rows, user);
        return Failure(Reuse);
      }
      return Success(n);
    }
  }

  predicate Acceptable(rows: Table, t: TokenId, fingerprint: string, userLoads: bool, now: int) {
    && fingerprint != "" && userLoads
    && t in rows && rows[t].replacedBy.None? && now <= rows[t].expiresAt && rows[t].fingerprint == fingerprint
  }
}
