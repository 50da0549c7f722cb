/** User administration: what a user may do, who may change whom, and what many such changes add up to. */
module UserAdmin {
  import opened Wrappers

  const ROLES := ["admin", "operator", "viewer"]

  datatype Rules = Rules(clusters: seq<string>, assignable: seq<string>, manageUsers: bool, viewAudit: bool,
                         deleteClusters: bool)

  datatype User = User(id: string, isRoot: bool, roles: seq<string>, rules: Option<Rules>)

  /* ---- permissions ---- */

  datatype Permissions = Permissions(clusters: seq<string>, assignable: seq<string>, isRoot: bool, allClusters: bool,
                                     manageUsers: bool, viewAudit: bool, deleteClusters: bool)
  {
    predicate AllowsCluster(c: string) { isRoot || allClusters || c in clusters }

    predicate AllowsRole(role: string) { isRoot || role in assignable }

    predicate AllowsRoles(roles: seq<string>) { forall i | 0 <= i < |roles| :: AllowsRole(roles[i]) }

    predicate CanAssignAccessRules(rules: Option<Rules>) {
      isRoot
      || (rules.Some?
          && (rules.value.manageUsers ==> manageUsers)
          && (rules.value.viewAudit ==> viewAudit)
          && (rules.value.deleteClusters ==> deleteClusters)
          && (forall i | 0 <= i < |rules.value.clusters| :: AllowsCluster(rules.value.clusters[i]))
          && AllowsRoles(rules.value.assignable))
    }

    predicate SupersetOf(other: Permissions) {
      isRoot
      || ((other.manageUsers ==> manageUsers)
          && (other.viewAudit ==> viewAudit)
          && (other.deleteClusters ==> deleteClusters)
          && (forall i | 0 <= i < |other.clusters| :: AllowsCluster(other.clusters[i]))
          && AllowsRoles(other.assignable))
    }
  }

  const FULL := Permissions([], ROLES, true, true, true, true, true)

  function PermissionsFor(u: User): Permissions {
    if u.isRoot then FULL
    else
      match u.rules
      case None =>
        if "admin" in u.roles then FULL.(isRoot := false) else Permissions([], [], false, false, false, false, false)
      case Some(r) => Permissions(r.clusters, r.assignable, false, false, r.manageUsers, r.viewAudit, r.deleteClusters)
  }

  // p may do everything q may do.
  ghost predicate Covers(p: Permissions, q: Permissions) {
    && (forall c :: q.AllowsCluster(c) ==> p.AllowsCluster(c))
    && (forall r :: q.AllowsRole(r) ==> p.AllowsRole(r))
    && (q.manageUsers ==> p.manageUsers) && (q.viewAudit ==> p.viewAudit) && (q.deleteClusters ==> p.deleteClusters)
  }

  // Permissions as PermissionsFor makes them: root has every flag.
  predicate Regular(p: Permissions) { p.isRoot ==> p.manageUsers && p.viewAudit && p.deleteClusters }

  lemma {:induction false} TooLong(ids: seq<string>) returns (id: string)
    ensures id !in ids
    ensures forall i | 0 <= i < |ids| :: |ids[i]| < |id|
  {
    if ids == [] {
      id := "";
    } else {
      var n := |ids| - 1;
      var rest := TooLong(ids[..n]);
      id := seq(|rest| + |ids[n]| + 1, _ => 'x');
      forall i | 0 <= i < |ids| ensures |ids[i]| < |id| { assert i < n ==> ids[i] == ids[..n][i]; }
    }
  }

  // SupersetOf means what its name says for every target that is not root, except that it does not look at
  // AllClusters.
  lemma SupersetExactly(p: Permissions, q: Permissions)
    requires Regular(p) && !q.isRoot
    ensures Covers(p, q) <==> p.SupersetOf(q) && (q.allClusters ==> p.isRoot || p.allClusters)
  {
    if Covers(p, q) {
      forall i | 0 <= i < |q.clusters| ensures p.AllowsCluster(q.clusters[i]) { assert q.AllowsCluster(q.clusters[i]); }
      forall i | 0 <= i < |q.assignable| ensures p.AllowsRole(q.assignable[i]) { assert q.AllowsRole(q.assignable[i]); }
      if q.allClusters {
        var c := TooLong(p.clusters);
        assert q.AllowsCluster(c);
      }
    }
    if p.SupersetOf(q) && (q.allClusters ==> p.isRoot || p.allClusters) {
      forall c | q.AllowsCluster(c) ensures p.AllowsCluster(c) {
        if !q.allClusters { var i :| 0 <= i < |q.clusters| && q.clusters[i] == c; }
      }
      forall r | q.AllowsRole(r) ensures p.AllowsRole(r) {
        var i :| 0 <= i < |q.assignable| && q.assignable[i] == r;
      }
    }
  }

  // Rules may be assigned exactly if the assigner covers whoever holds them.
  lemma CanAssignExactly(p: Permissions, u: User)
    requires Regular(p) && !u.isRoot && u.rules.Some?
    ensures p.CanAssignAccessRules(u.rules) <==> Covers(p, PermissionsFor(u))
  {
    SupersetExactly(p, PermissionsFor(u));
  }

  /* ---- requests ---- */

  datatype Error = Forbidden | CannotEscalate | RootProtected | InvalidRoles | InvalidRules | RulesRequired | NotFound

  datatype CreateInput = CreateInput(isRoot: bool, roles: seq<string>, rules: Option<Rules>)

  datatype UpdateInput = UpdateInput(setRoles: bool, roles: seq<string>, setRules: bool, rules: Option<Rules>)

  predicate ValidRoles(roles: seq<string>) { roles != [] && forall i | 0 <= i < |roles| :: roles[i] in ROLES }

  predicate ValidRules(r: Rules) {
    r.clusters != [] && (forall i | 0 <= i < |r.assignable| :: r.assignable[i] in ROLES)
        && (r.manageUsers ==> r.assignable != [])
  }

  function CheckCreate(actor: User, input: CreateInput): Option<Error> {
    var perms := PermissionsFor(actor);
    if !perms.manageUsers || input.isRoot then Some(Forbidden)
    else if !ValidRoles(input.roles) then Some(InvalidRoles)
    else if input.rules.None? && (!perms.isRoot || "admin" !in input.roles) then Some(RulesRequired)
    else if input.rules.Some? && !ValidRules(input.rules.value) then Some(InvalidRules)
    else if !perms.isRoot && !(perms.AllowsRoles(input.roles) && perms.CanAssignAccessRules(input.rules))
        then Some(CannotEscalate)
    else None
  }

  function CheckMutation(actor: User, target: User): Option<Error> {
    var perms := PermissionsFor(actor);
    if target.isRoot && !actor.isRoot then Some(RootProtected)
    else if actor.id == target.id && !actor.isRoot then Some(Forbidden)
    else if !perms.manageUsers then Some(Forbidden)
    else if perms.isRoot then None
    else if !perms.SupersetOf(PermissionsFor(target)) then Some(Forbidden)
    else None
  }

  function CheckUpdate(actor: User, target: User, input: UpdateInput): Option<Error> {
    var perms := PermissionsFor(actor);
    if CheckMutation(actor, target).Some? then CheckMutation(actor, target)
    else if input.setRoles && !ValidRoles(input.roles) then Some(InvalidRoles)
    else if input.setRoles && !perms.AllowsRoles(input.roles) then Some(CannotEscalate)
    else if input.setRules && input.rules.None? && !perms.isRoot then Some(CannotEscalate)
    else if input.setRules && input.rules.Some? && !ValidRules(input.rules.value) then Some(InvalidRules)
    else if input.setRules && input.rules.Some? && !perms.CanAssignAccessRules(input.rules) then Some(CannotEscalate)
    else None
  }

  function CheckDelete(actor: User, target: User): Option<Error> {
    if actor.id == target.id then Some(Forbidden) else CheckMutation(actor, target)
  }

  function Updated(u: User, input: UpdateInput): User {
    u.(roles := if input.setRoles then input.roles else u.roles,
       rules := if input.setRules then input.rules else u.rules)
  }

  /* ---- who may do what, in full ---- */

  // Root may do everything; an admin without rules everything but be root; anybody else what the rules say.
  lemma RightsExactly(u: User, cluster: string, role: string)
    ensures var p := PermissionsFor(u);
            var admin := u.rules.None? && "admin" in u.roles;
            var rules := if u.rules.Some? then u.rules.value else Rules([], [], false, false, false);
            && (p.AllowsCluster(cluster) <==> u.isRoot || admin || cluster in rules.clusters)
            && (p.AllowsRole(role) <==> u.isRoot || (admin && KnownRole(role)) || role in rules.assignable)
            && (p.manageUsers <==> u.isRoot || admin || rules.manageUsers)
            && (p.viewAudit <==> u.isRoot || admin || rules.viewAudit)
            && (p.deleteClusters <==> u.isRoot || admin || rules.deleteClusters)
  {}

  predicate KnownRole(r: string) { r == "admin" || r == "operator" || r == "viewer" }

  predicate KnownRoles(roles: seq<string>) { forall i | 0 <= i < |roles| :: KnownRole(roles[i]) }

  // Rules name a cluster, known roles, and roles to assign if their holder manages users.
  predicate Usable(r: Rules) {
    r.clusters != [] && KnownRoles(r.assignable) && (r.manageUsers ==> r.assignable != [])
  }

  // Who may be created by whom: a user that is not root, with known roles; without rules only an admin, by root;
  // and by anybody else only with assignable roles and with rules the creator covers.
  lemma CreateExactly(actor: User, id: string, input: CreateInput)
    ensures var p := PermissionsFor(actor);
            CheckCreate(actor, input).None? <==>
              && p.manageUsers && !input.isRoot && input.roles != [] && KnownRoles(input.roles)
              && (input.rules.Some? ==> Usable(input.rules.value))
              && (input.rules.None? ==> actor.isRoot && "admin" in input.roles)
              && (!actor.isRoot ==> (forall i | 0 <= i < |input.roles| :: p.AllowsRole(input.roles[i]))
                                    && Covers(p, PermissionsFor(User(id, false, input.roles, input.rules))))
  {
    if input.rules.Some? { CanAssignExactly(PermissionsFor(actor), User(id, false, input.roles, input.rules)); }
  }

  // Who may change whom: root anybody; a manager anybody else but root whose rights it covers, all clusters aside.
  lemma MutationExactly(actor: User, target: User)
    ensures var p := PermissionsFor(actor);
            && (CheckMutation(actor, target).None? <==>
                  || actor.isRoot
                  || (!target.isRoot && actor.id != target.id && p.manageUsers
                      && Covers(p, PermissionsFor(target).(allClusters := false))))
            && (CheckMutation(actor, target) == Some(RootProtected) <==> target.isRoot && !actor.isRoot)
  {
    if !target.isRoot { SupersetExactly(PermissionsFor(actor), PermissionsFor(target).(allClusters := false)); }
  }

  // What a change may set: known roles the actor may assign; and rules the actor covers, or none, by root.
  // Nobody deletes themselves; otherwise who may change a user may delete it.
  lemma UpdateExactly(actor: User, target: User, input: UpdateInput)
    ensures CheckDelete(actor, target).None? <==> actor.id != target.id && CheckMutation(actor, target).None?
    ensures var p := PermissionsFor(actor);
            CheckUpdate(actor, target, input).None? <==>
              && CheckMutation(actor, target).None?
              && (input.setRoles ==> input.roles != [] && KnownRoles(input.roles)
                                     && forall i | 0 <= i < |input.roles| :: p.AllowsRole(input.roles[i]))
              && (input.setRules && input.rules.None? ==> actor.isRoot)
              && (input.setRules && input.rules.Some? ==>
                    Usable(input.rules.value) && Covers(p, PermissionsFor(User("", false, [], input.rules))))
  {
    if input.rules.Some? { CanAssignExactly(PermissionsFor(actor), User("", false, [], input.rules)); }
  }

  /* ---- the service ---- */

  class UserService {
    var users: map<string, User>

    constructor (users: map<string, User>)
      ensures this.users == users
    {
      this.users := users;
    }

    method ValidateRoles(roles: seq<string>) returns (ok: bool)
      ensures ok == ValidRoles(roles)
    {
      if |roles| == 0 { return false; }
      for i := 0 to |roles|
        invariant forall k | 0 <= k < i :: roles[k] in ROLES
      {
        if roles[i] !in ROLES { return false; }
      }
      return true;
    }

    method Create(actor: User, id: string, input: CreateInput) returns (error: Option<Error>)
      requires id !in users
      modifies this
      ensures error == CheckCreate(actor, input)
      ensures users == if error.None? then old(users)[id := User(id, false, input.roles, input.rules)] else old(users)
    {
      var perms := PermissionsFor(actor);
      if !perms.manageUsers { return Some(Forbidden); }
      if input.isRoot { return Some(Forbidden); }
      var ok := ValidateRoles(input.roles);
      if !ok { return Some(InvalidRoles); }
      if input.rules.None? {
        if !perms.isRoot || "admin" !in input.roles { return Some(RulesRequired); }
      } else if !ValidRules(input.rules.value) {
        return Some(InvalidRules);
      }
      if !perms.isRoot {
        if !perms.AllowsRoles(input.roles) { return Some(CannotEscalate); }
        if !perms.CanAssignAccessRules(input.rules) { return Some(CannotEscalate); }
      }
      users := users[id := User(id, input.isRoot, input.roles, input.rules)];
      return None;
    }

    method Authorize(actor: User, target: User) returns (error: Option<Error>)
      ensures error == CheckMutation(actor, target)
    {
      if target.isRoot && !actor.isRoot { return Some(RootProtected); }
      if actor.id == target.id && !actor.isRoot { return Some(Forbidden); }
      var perms := PermissionsFor(actor);
      if !perms.manageUsers { return Some(Forbidden); }
      if perms.isRoot { return None; }
      if !perms.SupersetOf(PermissionsFor(target)) && actor.id != target.id { return Some(Forbidden); }
      return None;
    }

    method Update(actor: User, id: string, input: UpdateInput) returns (error: Option<Error>)
      modifies this
      ensures error == if id !in old(users) then Some(NotFound) else CheckUpdate(actor, old(users)[id], input)
      ensures users == if error.None? then old(users)[id := Updated(old(users)[id], input)] else old(users)
    {
      if id !in users { return Some(NotFound); }
      var target := users[id];
      error := Authorize(actor, target);
      if error.Some? { return; }
      var perms := PermissionsFor(actor);
      if input.setRoles {
        var ok := ValidateRoles(input.roles);
        if !ok { return Some(InvalidRoles); }
        if !perms.AllowsRoles(input.roles) { return Some(CannotEscalate); }
      }
      if input.setRules {
        if input.rules.None? {
          if !perms.isRoot { return Some(CannotEscalate); }
        } else {
          if !ValidRules(input.rules.value) { return Some(InvalidRules); }
          if !perms.CanAssignAccessRules(input.rules) { return Some(CannotEscalate); }
        }
      }
      users := users[id := Updated(target, input)];
      return None;
    }

    method SetRoles(actor: User, id: string, roles: seq<string>) returns (error: Option<Error>)
      modifies this
      ensures error == if id !in old(users) then Some(NotFound)
                       else CheckUpdate(actor, old(users)[id], UpdateInput(true, roles, false, None))
      ensures users == if error.None? then old(users)[id := old(users)[id].(roles := roles)] else old(users)
    {
      error := Update(actor, id, UpdateInput(true, roles, false, None));
    }

    // The statement that deletes spares root rows by itself.
    method Delete(actor: User, id: string) returns (error: Option<Error>)
      modifies this
      ensures error == if actor.id == id then Some(Forbidden)
                       else if id !in old(users) then Some(NotFound)
                       else if CheckMutation(actor, old(users)[id]).Some? then CheckMutation(actor, old(users)[id])
                       else if old(users)[id].isRoot then Some(RootProtected)
                       else None
      ensures users == if error.None? then old(users) - {id} else old(users)
    {
      if actor.id == id { return Some(Forbidden); }
      if id !in users { return Some(NotFound); }
      error := Authorize(actor, users[id]);
      if error.Some? { return; }
      if users[id].isRoot { return Some(RootProtected); }
      users := users - {id};
    }
  }

  /* ---- runs of requests by users other than root ---- */

  // An actor or a target may be any version of a user that was ever in the table: requests carry what an
  // earlier read returned.
  datatype State = State(table: map<string, User>, seen: set<User>)

  datatype Request =
    | Create(actor: User, id: string, create: CreateInput)
    | Update(actor: User, target: User, update: UpdateInput)
    | Delete(actor: User, target: User)

  predicate Can(s: State, q: Request) {
    q.actor in s.seen && !q.actor.isRoot
    && match q
       case Create(_, id, _) => forall u | u in s.seen :: u.id != id
       case Update(_, target, _) => target in s.seen
       case Delete(_, target) => target in s.seen
  }

  function Put(s: State, u: User): State { State(s.table[u.id := u], s.seen + {u}) }

  function Do(s: State, q: Request): State {
    match q
    case Create(actor, id, input) =>
      if CheckCreate(actor, input).None? then Put(s, User(id, input.isRoot, input.roles, input.rules)) else s
    case Update(actor, target, input) =>
      if CheckUpdate(actor, target, input).None? && target.id in s.table && s.table[target.id].id == target.id
      then Put(s, Updated(s.table[target.id], input)) else s
    case Delete(actor, target) =>
      if CheckDelete(actor, target).None? && target.id in s.table && !s.table[target.id].isRoot
      then s.(table := s.table - {target.id}) else s
  }

  // Anybody but root may ask for any change of anybody, with an old view of both, and for any new user.
  lemma RequestsArePossible(s: State, q: Request)
    requires q.actor in s.seen && !q.actor.isRoot
    requires q.Create? ==> forall u <- s.seen :: u.id != q.id
    requires !q.Create? ==> q.target in s.seen
    ensures Can(s, q)
  {}

  // A request that passes its check does what it says to one row, and no request touches another row.
  lemma RequestsTakeEffect(s: State, q: Request, id: string)
    ensures var t := Do(s, q).table;
            match q
            case Create(actor, new_, input) =>
              var ok := CheckCreate(actor, input).None?;
              && (ok && id == new_ ==> id in t && t[id] == User(id, false, input.roles, input.rules))
              && (!ok || id != new_ ==> (id in t <==> id in s.table) && (id in t ==> t[id] == s.table[id]))
            case Update(actor, target, input) =>
              var ok := CheckUpdate(actor, target, input).None?;
              && (id in t <==> id in s.table)
              && (ok && id in t && id == target.id == s.table[id].id ==>
                    && t[id].id == id && t[id].isRoot == s.table[id].isRoot
                    && t[id].roles == (if input.setRoles then input.roles else s.table[id].roles)
                    && t[id].rules == (if input.setRules then input.rules else s.table[id].rules))
              && (id in t && (!ok || id != target.id) ==> t[id] == s.table[id])
            case Delete(actor, target) =>
              var ok := CheckDelete(actor, target).None?;
              && (id in t <==> id in s.table && !(ok && id == target.id && !s.table[id].isRoot))
              && (id in t ==> t[id] == s.table[id])
  {}

  function Start(table: map<string, User>): State { State(table, table.Values) }

  function After(table: map<string, User>, run: seq<Request>): State
    decreases |run|
  {
    if run == [] then Start(table)
    else
      var s := After(table, run[..|run| - 1]);
      if Can(s, run[|run| - 1]) then Do(s, run[|run| - 1]) else s
  }

  /* ---- what such runs keep ---- */

  predicate OneRoot(table: map<string, User>, root: string) {
    root in table && forall id | id in table :: table[id].id == id && (table[id].isRoot <==> id == root)
  }

  predicate RuleLess(table: map<string, User>, id: string) { id in table && !table[id].isRoot && table[id].rules.None? }

  // A full admin that is not root: the role admin and no access rules.
  predicate LegacyAdmin(table: map<string, User>) {
    exists id | id in table :: RuleLess(table, id) && "admin" in table[id].roles
  }

  // A user without rights only for want of the role: no access rules, and not an admin.
  predicate Dormant(table: map<string, User>) {
    exists id | id in table :: RuleLess(table, id) && "admin" !in table[id].roles
  }

  // May manage users and assign the role admin.
  predicate Potent(u: User) { !u.isRoot && PermissionsFor(u).manageUsers && PermissionsFor(u).AllowsRole("admin") }

  predicate SomePotent(table: map<string, User>) { exists id | id in table :: Potent(table[id]) }

  // Somebody other than root can make a dormant user a full admin, where so far there was none.
  predicate Danger(table: map<string, User>) { !LegacyAdmin(table) && SomePotent(table) && Dormant(table) }

  // Capabilities that some user other than root holds.
  ghost predicate SomeCluster(table: map<string, User>, c: string) {
    exists id :: id in table && !table[id].isRoot && PermissionsFor(table[id]).AllowsCluster(c)
  }

  ghost predicate SomeAssignable(table: map<string, User>, r: string) {
    exists id :: id in table && !table[id].isRoot && PermissionsFor(table[id]).AllowsRole(r)
  }

  ghost predicate SomeRole(table: map<string, User>, r: string) {
    exists id :: id in table && !table[id].isRoot && r in table[id].roles
  }

  predicate SomeManager(table: map<string, User>) {
    exists id :: id in table && !table[id].isRoot && PermissionsFor(table[id]).manageUsers
  }

  predicate SomeAuditor(table: map<string, User>) {
    exists id :: id in table && !table[id].isRoot && PermissionsFor(table[id]).viewAudit
  }

  predicate SomeDeleter(table: map<string, User>) {
    exists id :: id in table && !table[id].isRoot && PermissionsFor(table[id]).deleteClusters
  }

  // Everything u may do, somebody other than root can do in the table.
  ghost predicate Within(table: map<string, User>, u: User) {
    var p := PermissionsFor(u);
    && (forall c :: p.AllowsCluster(c) ==> SomeCluster(table, c))
    && (forall r :: p.AllowsRole(r) ==> SomeAssignable(table, r))
    && (forall r | r in u.roles :: SomeRole(table, r) || SomeAssignable(table, r))
    && (p.manageUsers ==> SomeManager(table)) && (p.viewAudit ==> SomeAuditor(table))
    && (p.deleteClusters ==> SomeDeleter(table))
  }

  // No user other than root in t is beyond the reach of those in the table.
  ghost predicate Contained(t: map<string, User>, table: map<string, User>) {
    forall id | id in t :: !t[id].isRoot ==> Within(table, t[id])
  }

  lemma OwnIsWithin(table: map<string, User>, id: string)
    requires id in table && !table[id].isRoot
    ensures Within(table, table[id])
  {}

  // A full admin already holds whatever anybody without rules could.
  lemma LegacyCoversAll(table: map<string, User>, u: User)
    requires LegacyAdmin(table) && !u.isRoot && u.rules.None?
    requires forall r | r in u.roles :: SomeRole(table, r) || SomeAssignable(table, r)
    ensures Within(table, u)
  {
    var id :| id in table && RuleLess(table, id) && "admin" in table[id].roles;
    OwnIsWithin(table, id);
    assert PermissionsFor(table[id]) == FULL.(isRoot := false);
  }

  // What a non-root actor may hand out is within what that actor holds.
  lemma GrantedWithin(table: map<string, User>, actor: User, u: User)
    requires !actor.isRoot && Within(table, actor) && !u.isRoot
    requires PermissionsFor(actor).CanAssignAccessRules(u.rules)
    requires forall r | r in u.roles :: SomeRole(table, r) || SomeAssignable(table, r)
    ensures u.rules.Some? && Within(table, u)
    ensures Potent(u) && PermissionsFor(actor).manageUsers ==> Potent(actor)
  {
    CanAssignExactly(PermissionsFor(actor), u);
  }

  lemma RolesWithin(table: map<string, User>, actor: User, roles: seq<string>)
    requires Within(table, actor) && PermissionsFor(actor).AllowsRoles(roles)
    ensures forall r | r in roles :: PermissionsFor(actor).AllowsRole(r) && SomeAssignable(table, r)
  {
    forall r | r in roles ensures PermissionsFor(actor).AllowsRole(r) && SomeAssignable(table, r) {
      var i :| 0 <= i < |roles| && roles[i] == r;
    }
  }

  ghost predicate SeenOk(table0: map<string, User>, root: string, u: User) {
    && (u.isRoot <==> u.id == root)
    && (!u.isRoot && u.rules.None? ==> RuleLess(table0, u.id))
  }

  ghost predicate Bounded(table0: map<string, User>, u: User) {
    !u.isRoot ==> Within(table0, u) && (Potent(u) ==> SomePotent(table0))
  }

  ghost predicate UserOk(table0: map<string, User>, root: string, u: User) {
    SeenOk(table0, root, u) && (!Danger(table0) ==> Bounded(table0, u))
  }

  ghost predicate Inv(table0: map<string, User>, root: string, s: State) {
    && root in s.table && root in table0 && s.table[root] == table0[root]
    && (forall id | id in s.table :: s.table[id] in s.seen && s.table[id].id == id)
    && (forall u | u in s.seen :: UserOk(table0, root, u))
  }

  lemma PutKeeps(table: map<string, User>, root: string, s: State, u: User)
    requires Inv(table, root, s) && !u.isRoot && u.id != root && UserOk(table, root, u)
    ensures Inv(table, root, Put(s, u))
  {}

  lemma CreatedIsOk(table: map<string, User>, root: string, actor: User, id: string, input: CreateInput)
    requires UserOk(table, root, actor) && !actor.isRoot && id != root && CheckCreate(actor, input).None?
    ensures UserOk(table, root, User(id, false, input.roles, input.rules))
  {
    if !Danger(table) {
      RolesWithin(table, actor, input.roles);
      GrantedWithin(table, actor, User(id, false, input.roles, input.rules));
    }
  }

  // Nobody becomes a full admin unless there was one, or the table was dangerous.
  lemma RuleLessIsBounded(table: map<string, User>, root: string, actor: User, was: User, u: User)
    requires !Danger(table) && UserOk(table, root, was) && Bounded(table, actor) && !actor.isRoot && !was.isRoot
    requires u.id == was.id && !u.isRoot && u.rules.None? && was.rules.None? && PermissionsFor(actor).manageUsers
    requires u.roles == was.roles || PermissionsFor(actor).AllowsRoles(u.roles)
    ensures Bounded(table, u)
  {
    if u.roles != was.roles {
      RolesWithin(table, actor, u.roles);
      if "admin" in u.roles {
        assert Potent(actor) && RuleLess(table, u.id);
        assert "admin" !in table[u.id].roles ==> Dormant(table);
        LegacyCoversAll(table, u);
      }
    }
  }

  lemma UpdatedIsOk(table: map<string, User>, root: string, actor: User, target: User, was: User, input: UpdateInput)
    requires UserOk(table, root, actor) && UserOk(table, root, was) && !actor.isRoot && !was.isRoot
    requires CheckUpdate(actor, target, input).None?
    ensures UserOk(table, root, Updated(was, input))
  {
    var u := Updated(was, input);
    if !Danger(table) {
      if input.setRoles { RolesWithin(table, actor, input.roles); }
      if input.setRules {
        GrantedWithin(table, actor, u);
      } else if u.rules.None? {
        RuleLessIsBounded(table, root, actor, was, u);
      }
    }
  }

  lemma CreateKeeps(table: map<string, User>, root: string, s: State, q: Request)
    requires Inv(table, root, s) && q.Create? && Can(s, q)
    ensures Inv(table, root, Do(s, q))
  {
    if CheckCreate(q.actor, q.create).None? {
      assert UserOk(table, root, q.actor);
      CreatedIsOk(table, root, q.actor, q.id, q.create);
      PutKeeps(table, root, s, User(q.id, q.create.isRoot, q.create.roles, q.create.rules));
    }
  }

  lemma UpdateKeeps(table: map<string, User>, root: string, s: State, q: Request)
    requires Inv(table, root, s) && q.Update? && Can(s, q)
    ensures Inv(table, root, Do(s, q))
  {
    if CheckUpdate(q.actor, q.target, q.update).None? && q.target.id in s.table {
      var was := s.table[q.target.id];
      assert UserOk(table, root, q.actor) && UserOk(table, root, q.target) && UserOk(table, root, was);
      UpdatedIsOk(table, root, q.actor, q.target, was, q.update);
      PutKeeps(table, root, s, Updated(was, q.update));
    }
  }

  lemma {:induction false} RunsKeepInv(table: map<string, User>, root: string, run: seq<Request>)
    requires OneRoot(table, root)
    ensures Inv(table, root, After(table, run))
  {
    if run == [] {
      forall u | u in table.Values ensures UserOk(table, root, u) {
        var id :| id in table && table[id] == u;
        if !u.isRoot { OwnIsWithin(table, id); }
      }
    } else {
      var s, q := After(table, run[..|run| - 1]), run[|run| - 1];
      RunsKeepInv(table, root, run[..|run| - 1]);
      if Can(s, q) {
        match q
        case Create(_, _, _) => CreateKeeps(table, root, s, q);
        case Update(_, _, _) => UpdateKeeps(table, root, s, q);
        case Delete(_, _) => assert UserOk(table, root, s.table[root]);
      }
    }
  }

  // Whatever users other than root do, root stays the only root and is not touched, and nobody is left
  // without access rules who was not before.
  lemma RootAndRulesStay(table: map<string, User>, root: string, run: seq<Request>)
    requires OneRoot(table, root)
    ensures var t := After(table, run).table;
            OneRoot(t, root) && t[root] == table[root] && forall id | RuleLess(t, id) :: RuleLess(table, id)
  {
    RunsKeepInv(table, root, run);
    var s := After(table, run);
    forall id | id in s.table ensures SeenOk(table, root, s.table[id]) && s.table[id].id == id {
      assert UserOk(table, root, s.table[id]);
    }
  }

  lemma StaysContained(table: map<string, User>, root: string, run: seq<Request>)
    requires OneRoot(table, root) && !Danger(table)
    ensures Contained(After(table, run).table, table)
  {
    RunsKeepInv(table, root, run);
    var s := After(table, run);
    forall id | id in s.table && !s.table[id].isRoot ensures Within(table, s.table[id]) {
      assert UserOk(table, root, s.table[id]);
    }
  }

  // Containment in plain words: no cluster, role or capability appears that nobody but root had.
  ghost predicate NothingAppears(t: map<string, User>, table: map<string, User>) {
    && (forall c :: SomeCluster(t, c) ==> SomeCluster(table, c))
    && (forall r :: SomeAssignable(t, r) ==> SomeAssignable(table, r))
    && (forall r :: SomeRole(t, r) ==> SomeRole(table, r) || SomeAssignable(table, r))
    && (SomeManager(t) ==> SomeManager(table))
    && (SomeAuditor(t) ==> SomeAuditor(table))
    && (SomeDeleter(t) ==> SomeDeleter(table))
  }

  lemma ContainedMeans(t: map<string, User>, table: map<string, User>)
    ensures Contained(t, table) <==> NothingAppears(t, table)
  {
    if NothingAppears(t, table) {
      forall id | id in t && !t[id].isRoot ensures Within(table, t[id]) { OwnIsWithin(t, id); }
    }
  }

  /* ---- from where they escalate ---- */

  // Longer than every cluster id that the rules of these users name.
  lemma {:induction false} Longest(table: map<string, User>, ids: set<string>) returns (n: nat)
    requires ids <= table.Keys
    ensures forall id, c | id in ids && table[id].rules.Some? && c in table[id].rules.value.clusters :: |c| < n
    decreases |ids|
  {
    if ids == {} {
      n := 0;
    } else {
      var id :| id in ids;
      var m := Longest(table, ids - {id});
      var own := TooLong(if table[id].rules.Some? then table[id].rules.value.clusters else []);
      n := m + |own|;
      forall j, c | j in ids && table[j].rules.Some? && c in table[j].rules.value.clusters ensures |c| < n {
        if j == id { var k :| 0 <= k < |table[id].rules.value.clusters| && table[id].rules.value.clusters[k] == c; }
      }
    }
  }

  lemma SomeClusterIsMissing(table: map<string, User>) returns (c: string)
    requires !LegacyAdmin(table)
    ensures !SomeCluster(table, c)
  {
    var n := Longest(table, table.Keys);
    c := seq(n, _ => 'x');
    forall id | id in table && !table[id].isRoot ensures !PermissionsFor(table[id]).AllowsCluster(c) {
      assert table[id].rules.None? ==> RuleLess(table, id);
      assert |c| == n && (table[id].rules.Some? ==> c !in table[id].rules.value.clusters);
    }
  }

  function PromotionOf(p: User, q: User): Request { Update(p, q, UpdateInput(true, ["admin"], false, None)) }

  lemma PromotionTakesEffect(table: map<string, User>, root: string, p: string, q: string)
    requires OneRoot(table, root) && p in table && Potent(table[p])
    requires RuleLess(table, q) && "admin" !in table[q].roles
    ensures var t := After(table, [PromotionOf(table[p], table[q])]).table;
            q in t && t[q] == table[q].(roles := ["admin"])
  {
    var request := PromotionOf(table[p], table[q]);
    assert [request][..0] == [] && After(table, []) == Start(table);
    assert table[p] in table.Values && table[q] in table.Values && p != q;
    assert CheckUpdate(table[p], table[q], request.update).None?;
  }

  // One request is enough: a manager who may assign the role admin gives it to a dormant user.
  lemma Promotion(table: map<string, User>, root: string, p: string, q: string)
    requires OneRoot(table, root) && !LegacyAdmin(table) && p in table && Potent(table[p])
    requires RuleLess(table, q) && "admin" !in table[q].roles
    ensures !Contained(After(table, [PromotionOf(table[p], table[q])]).table, table)
  {
    PromotionTakesEffect(table, root, p, q);
    var t := After(table, [PromotionOf(table[p], table[q])]).table;
    var c := SomeClusterIsMissing(table);
    assert PermissionsFor(t[q]).AllowsCluster(c);
  }

  // Users other than root can add to what they hold together exactly if somebody among them may manage
  // users and assign the role admin, somebody among them has neither access rules nor that role, and
  // nobody among them is a full admin already.
  lemma EscalationExactly(table: map<string, User>, root: string)
    requires OneRoot(table, root)
    ensures (exists run :: !Contained(After(table, run).table, table)) <==> Danger(table)
  {
    if Danger(table) {
      var p :| p in table && Potent(table[p]);
      var q :| q in table && RuleLess(table, q) && "admin" !in table[q].roles;
      Promotion(table, root, p, q);
    } else {
      forall run ensures Contained(After(table, run).table, table) { StaysContained(table, root, run); }
    }
  }

  // One root, and access rules on everybody else.
  predicate Sound(table: map<string, User>, root: string) {
    OneRoot(table, root) && forall id | id in table :: !RuleLess(table, id)
  }

  // From a table in which everybody but root has access rules nothing escalates, and everybody keeps rules.
  lemma NothingEscalates(table: map<string, User>, root: string, run: seq<Request>)
    requires Sound(table, root)
    ensures var t := After(table, run).table; Sound(t, root) && t[root] == table[root] && Contained(t, table)
  {
    RootAndRulesStay(table, root, run);
    StaysContained(table, root, run);
  }

  /* ---- SupersetOf and AllClusters ---- */

  // A manager of one cluster passes the check against a full admin, whose clusters it does not cover.
  lemma SupersetMissesAllClusters()
    ensures var actor := User("m", false, ["viewer"], Some(Rules(["c1"], ROLES, true, true, true)));
            var target := User("a", false, ["admin"], None);
            CheckDelete(actor, target).None? && !Covers(PermissionsFor(actor), PermissionsFor(target))
  {
    var actor := User("m", false, ["viewer"], Some(Rules(["c1"], ROLES, true, true, true)));
    var target := User("a", false, ["admin"], None);
    var c := TooLong(["c1"]);
    assert PermissionsFor(target).AllowsCluster(c) && !PermissionsFor(actor).AllowsCluster(c);
  }

  // The shortest escalation: p manages users of cluster c1 and may assign the role admin, q is left without
  // role and rules. One request later q may use every cluster, such as c2.
  lemma EscalationExample(root: User, p: User, q: User)
    requires root == User("r", true, ["admin"], None)
    requires p == User("p", false, ["admin"], Some(Rules(["c1"], ["admin"], true, false, false)))
    requires q == User("q", false, ["viewer"], None)
    ensures var table := map["r" := root, "p" := p, "q" := q];
            && OneRoot(table, "r") && !SomeCluster(table, "c2")
            && SomeCluster(After(table, [PromotionOf(p, q)]).table, "c2")
  {
    var table := map["r" := root, "p" := p, "q" := q];
    assert table["r"] == root && table["p"] == p && table["q"] == q;
    assert "c2"[1] != "c1"[1];
    PromotionTakesEffect(table, "r", "p", "q");
    var t := After(table, [PromotionOf(p, q)]).table;
    assert PermissionsFor(t["q"]).AllowsCluster("c2");
  }
}
