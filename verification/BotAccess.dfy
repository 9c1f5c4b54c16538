/** Bot access roles and the user and group grants that use them. */
module BotAccess {
  import opened Text

  datatype Permission =
    | ViewRoutes
    | RevealWebhookUrls
    | ManageRouteStatus
    | DeleteRoutes
    | ManageAllowlist
    | CreatePrivateChatRoutes
    | CreateChannelRoutes

  function AllPermissions(): set<Permission> {
    {ViewRoutes, RevealWebhookUrls, ManageRouteStatus, DeleteRoutes, ManageAllowlist, CreatePrivateChatRoutes,
     CreateChannelRoutes}
  }

  const ROUTE_VIEWER := "route_viewer"
  const ROUTE_OPERATOR := "route_operator"

  function SystemName(key: string): string {
    if key == ROUTE_VIEWER then "Route Viewer" else "Route Operator"
  }

  function SystemPermissions(key: string): set<Permission> {
    if key == ROUTE_VIEWER then {ViewRoutes, RevealWebhookUrls} else AllPermissions()
  }

  datatype Role = Role(org: string, name: string, isSystem: bool, systemKey: Option<string>,
      permissions: set<Permission>)

  datatype Subject = User(objectId: string) | Group(objectId: string)

  /** A grant to a directory user or group. `permissions` is the stored copy; a linked grant
      takes its effective permissions from its role. */
  datatype Grant = Grant(
    org: string,
    subject: Subject,
    roleId: Option<nat>,
    roleLabel: string,
    active: bool,
    permissions: set<Permission>)

  datatype State = State(roles: map<nat, Role>, grants: map<nat, Grant>)

  datatype Result<+T> = Ok(value: T) | Err

  /** `_effective_bot_permissions`. */
  function Effective(s: State, g: Grant): set<Permission> {
    if g.roleId.Some? && g.roleId.value in s.roles then s.roles[g.roleId.value].permissions else g.permissions
  }

  predicate IsSystemRole(r: Role, org: string, key: string) {
    r.org == org && r.systemKey == Some(key)
  }

  predicate HasSystemRole(s: State, org: string, key: string) {
    exists i :: i in s.roles && IsSystemRole(s.roles[i], org, key)
  }

  /** The role with this system key; the schema allows one per organization. */
  ghost function SystemRole(s: State, org: string, key: string): (i: nat)
    requires HasSystemRole(s, org, key)
    ensures i in s.roles && IsSystemRole(s.roles[i], org, key)
  {
    var i :| i in s.roles && IsSystemRole(s.roles[i], org, key);
    i
  }

  predicate NameTaken(s: State, org: string, name: string) {
    exists i :: i in s.roles && s.roles[i].org == org && s.roles[i].name == name
  }

  // ----- operations -----

  /** One system role made sure of; a taken primary key or name is a constraint failure. */
  ghost function EnsureOne(s: State, org: string, key: string, newId: nat): Result<State> {
    if HasSystemRole(s, org, key) then
      var i := SystemRole(s, org, key);
      Ok(s.(roles := s.roles[i := s.roles[i].(isSystem := true)]))
    else if newId in s.roles || NameTaken(s, org, SystemName(key)) then Err
    else Ok(s.(roles := s.roles[newId := Role(org, SystemName(key), true, Some(key), SystemPermissions(key))]))
  }

  /** Ids the database hands out for rows a request may add. */
  datatype Ids = Ids(viewer: nat, operator: nat)

  /** `ensure_bot_access_system_roles`. */
  ghost function Ensure(s: State, org: string, ids: Ids): Result<State> {
    match EnsureOne(s, org, ROUTE_VIEWER, ids.viewer)
    case Ok(s1) => EnsureOne(s1, org, ROUTE_OPERATOR, ids.operator)
    case Err => Err
  }

  function Patched(permissions: set<Permission>, patch: map<Permission, bool>): set<Permission> {
    set p: Permission | if p in patch then patch[p] else p in permissions
  }

  predicate NameClash(s: State, org: string, name: string, own: Option<nat>) {
    exists i :: i in s.roles && own != Some(i) && s.roles[i].org == org && Lower(s.roles[i].name) == Lower(Trim(name))
  }

  function CreateRole(s: State, org: string, id: nat, name: string, permissions: set<Permission>): Result<State> {
    if Trim(name) == "" || NameClash(s, org, name, None) || id in s.roles then Err
    else Ok(s.(roles := s.roles[id := Role(org, Trim(name), false, None, permissions)]))
  }

  function LabelOf(r: Role): string {
    if r.systemKey.Some? && r.systemKey.value != "" then r.systemKey.value else "role"
  }

  /** `_sync_linked_bot_role_grants`: every linked grant gets the role's permissions and label. */
  function Synced(s: State, id: nat): State
    requires id in s.roles
  {
    var r := s.roles[id];
    s.(grants := map i | i in s.grants ::
      if s.grants[i].roleId == Some(id) then s.grants[i].(permissions := r.permissions, roleLabel := LabelOf(r))
      else s.grants[i])
  }

  function UpdateRole(s: State, org: string, id: nat, name: Option<string>,
      patch: map<Permission, bool>): Result<State>
  {
    if id !in s.roles || s.roles[id].org != org then Err
    else if name.Some? && (Trim(name.value) == "" || NameClash(s, org, name.value, Some(id))) then Err
    else Ok(Synced(s.(roles := s.roles[id := UpdatedRole(s.roles[id], name, patch)]), id))
  }

  function UpdatedRole(r: Role, name: Option<string>, patch: map<Permission, bool>): Role {
    r.(name := if name.Some? then Trim(name.value) else r.name, permissions := Patched(r.permissions, patch))
  }

  predicate Assigned(s: State, id: nat) {
    exists i :: i in s.grants && s.grants[i].roleId == Some(id)
  }

  function DeleteRole(s: State, org: string, id: nat): Result<State> {
    if id !in s.roles || s.roles[id].org != org then Err
    else if s.roles[id].isSystem || Assigned(s, id) then Err
    else Ok(s.(roles := s.roles - {id}))
  }

  /** `_resolve_payload_bot_role`: an explicit role, a system role by label, or none. */
  ghost function ResolveRole(s: State, org: string, roleId: Option<nat>, roleLabel: string, ids: Ids)
    : (r: Result<(State, Option<nat>)>)
  {
    if roleId.Some? then
      if roleId.value in s.roles && s.roles[roleId.value].org == org then Ok((s, roleId)) else Err
    else if roleLabel in {"route_viewer", "viewer"} then ResolveSystem(s, org, ROUTE_VIEWER, ids)
    else if roleLabel in {"route_operator", "operator", "route_manager"} then ResolveSystem(s, org, ROUTE_OPERATOR, ids)
    else Ok((s, None))
  }

  ghost function ResolveSystem(s: State, org: string, key: string, ids: Ids): Result<(State, Option<nat>)> {
    match Ensure(s, org, ids)
    case Err => Err
    case Ok(s') => if HasSystemRole(s', org, key) then Ok((s', Some(SystemRole(s', org, key)))) else Err
  }

  predicate SubjectTaken(s: State, org: string, subject: Subject) {
    exists i :: i in s.grants && s.grants[i].org == org && s.grants[i].subject == subject
  }

  function Normalized(subject: Subject): Subject {
    match subject
    case User(o) => User(Lower(Trim(o)))
    case Group(o) => Group(Lower(Trim(o)))
  }

  /** `create_bot_authorized_user` and `create_bot_authorized_group`. */
  ghost function CreateGrant(s: State, org: string, id: nat, subject: Subject, roleId: Option<nat>, roleLabel: string,
    active: bool, permissions: set<Permission>, ids: Ids): Result<State>
  {
    var who := Normalized(subject);
    if who.objectId == "" || SubjectTaken(s, org, who) || id in s.grants then Err
    else match ResolveRole(s, org, roleId, roleLabel, ids)
      case Err => Err
      case Ok((s', role)) =>
        var g :=
          if role.Some? && role.value in s'.roles
          then Grant(org, who, role, LabelOf(s'.roles[role.value]), active, s'.roles[role.value].permissions)
          else Grant(org, who, None, Or(roleLabel, "custom"), active, permissions);
        Ok(s'.(grants := s'.grants[id := g]))
  }

  /** The fields of a grant update that are set. `role` is set when the request carries a role
      id, possibly null, or a role label. */
  datatype GrantChange = GrantChange(
    active: Option<bool>,
    role: Option<(Option<nat>, string)>,
    patch: map<Permission, bool>)

  ghost predicate SystemRoleHas(s: State, org: string, key: string, permissions: set<Permission>) {
    HasSystemRole(s, org, key) && s.roles[SystemRole(s, org, key)].permissions == permissions
  }

  /** `_infer_bot_role`. */
  ghost function InferLabel(s: State, org: string, permissions: set<Permission>): string {
    if SystemRoleHas(s, org, ROUTE_VIEWER, permissions) then ROUTE_VIEWER
    else if SystemRoleHas(s, org, ROUTE_OPERATOR, permissions) then ROUTE_OPERATOR
    else "custom"
  }

  /** The grant after its role fields were set, and the patch that is still to be applied. */
  function Relinked(s: State, g: Grant, role: Option<nat>, roleLabel: string): Grant {
    if role.Some? && role.value in s.roles
    then g.(roleId := role, roleLabel := LabelOf(s.roles[role.value]), permissions := s.roles[role.value].permissions)
    else g.(roleId := None, roleLabel := Or(roleLabel, "custom"))
  }

  ghost function PatchGrant(s: State, g: Grant, patch: map<Permission, bool>): Grant {
    if patch == map[] then g
    else
      var g' := g.(permissions := Patched(g.permissions, patch));
      if g'.roleId.None? then g'.(roleLabel := InferLabel(s, g'.org, g'.permissions)) else g'
  }

  /** `update_bot_authorized_user` and `update_bot_authorized_group`. */
  ghost function UpdateGrant(s: State, org: string, id: nat, change: GrantChange, ids: Ids): Result<State> {
    if id !in s.grants || s.grants[id].org != org then Err
    else
      var g := if change.active.Some? then s.grants[id].(active := change.active.value) else s.grants[id];
      if change.role.None? then Ok(s.(grants := s.grants[id := PatchGrant(s, g, change.patch)]))
      else
        match ResolveRole(s, org, change.role.value.0, change.role.value.1, ids)
        case Err => Err
        case Ok((s', role)) =>
          var linked := Relinked(s', g, role, change.role.value.1);
          var g' := if linked.roleId.Some? then linked else PatchGrant(s', linked, change.patch);
          Ok(s'.(grants := s'.grants[id := g']))
  }

  function DeleteGrant(s: State, org: string, id: nat): Result<State> {
    if id !in s.grants || s.grants[id].org != org then Err else Ok(s.(grants := s.grants - {id}))
  }

  /** What the role backfill does to one unlinked grant of the organization. */
  function Assign(g: Grant, viewer: nat, viewerRole: Role, operator: nat, operatorRole: Role): Grant {
    if g.roleLabel == "custom" then g
    else if g.roleLabel in {"viewer", "route_viewer"} && g.permissions == viewerRole.permissions
    then g.(roleId := Some(viewer), roleLabel := ROUTE_VIEWER)
    else if g.roleLabel in {"operator", "route_operator", "route_manager"} && g.permissions == operatorRole.permissions
    then g.(roleId := Some(operator), roleLabel := ROUTE_OPERATOR)
    else if g.roleLabel in {"viewer", "operator", "route_manager"} then g.(roleLabel := "custom")
    else g
  }

  ghost function AssignIn(s: State, org: string, g: Grant): Grant
    requires HasSystemRole(s, org, ROUTE_VIEWER) && HasSystemRole(s, org, ROUTE_OPERATOR)
  {
    if g.org != org || g.roleId.Some? then g
    else
      var v, o := SystemRole(s, org, ROUTE_VIEWER), SystemRole(s, org, ROUTE_OPERATOR);
      Assign(g, v, s.roles[v], o, s.roles[o])
  }

  ghost function AssignAll(s: State, org: string): State
    requires HasSystemRole(s, org, ROUTE_VIEWER) && HasSystemRole(s, org, ROUTE_OPERATOR)
  {
    s.(grants := map i | i in s.grants :: AssignIn(s, org, s.grants[i]))
  }

  /** `_backfill_bot_access_role_assignments` for one organization. */
  ghost function Backfill(s: State, org: string, ids: Ids): Result<State> {
    match Ensure(s, org, ids)
    case Err => Err
    case Ok(s') =>
      if HasSystemRole(s', org, ROUTE_VIEWER) && HasSystemRole(s', org, ROUTE_OPERATOR)
      then Ok(AssignAll(s', org)) else Err
  }

  /** The startup version: every organization in turn. */
  ghost function BackfillAll(s: State, orgs: seq<(string, Ids)>): Result<State> {
    if orgs == [] then Ok(s)
    else
      match BackfillAll(s, orgs[..|orgs| - 1])
      case Err => Err
      case Ok(s') => Backfill(s', orgs[|orgs| - 1].0, orgs[|orgs| - 1].1)
  }

  // ----- invariant -----

  predicate SameKey(r: Role, t: Role) {
    r.systemKey.Some? && r.org == t.org && r.systemKey == t.systemKey
  }

  predicate UniqueKeys(s: State) {
    forall i, j :: i in s.roles && j in s.roles && SameKey(s.roles[i], s.roles[j]) ==> i == j
  }

  predicate LinkOk(s: State, g: Grant) {
    g.roleId.Some? ==> g.roleId.value in s.roles && s.roles[g.roleId.value].org == g.org
  }

  predicate LinksOk(s: State) {
    forall i :: i in s.grants ==> LinkOk(s, s.grants[i])
  }

  predicate SameSubject(g: Grant, h: Grant) {
    g.org == h.org && g.subject == h.subject
  }

  /** One grant per organization and directory object. */
  predicate UniqueSubjects(s: State) {
    forall i, j :: i in s.grants && j in s.grants && SameSubject(s.grants[i], s.grants[j]) ==> i == j
  }

  predicate Valid(s: State) {
    UniqueKeys(s) && LinksOk(s) && UniqueSubjects(s)
  }

  lemma SystemRoleIs(s: State, org: string, key: string, i: nat)
    requires UniqueKeys(s) && i in s.roles && IsSystemRole(s.roles[i], org, key)
    ensures HasSystemRole(s, org, key) && SystemRole(s, org, key) == i
  {
  }

  /** Roles only ever gain: every role keeps its organization and key, and stays a system role. */
  predicate RolesKept(s: State, s': State) {
    forall i :: i in s.roles ==>
      && i in s'.roles && s'.roles[i].org == s.roles[i].org && s'.roles[i].systemKey == s.roles[i].systemKey
      && (s.roles[i].isSystem ==> s'.roles[i].isSystem)
  }

  predicate SamePermissions(s: State, s': State) {
    forall i :: i in s.roles ==> i in s'.roles && s'.roles[i].permissions == s.roles[i].permissions
  }

  lemma EnsureOneKeeps(s: State, org: string, key: string, newId: nat)
    requires Valid(s) && EnsureOne(s, org, key, newId).Ok?
    ensures var s' := EnsureOne(s, org, key, newId).value;
      && Valid(s') && s'.grants == s.grants && HasSystemRole(s', org, key)
      && RolesKept(s, s') && SamePermissions(s, s')
      && (forall i :: i in s'.roles && i !in s.roles ==> s'.roles[i].org == org)
  {
    hide SystemPermissions, Lower;
    var s' := EnsureOne(s, org, key, newId).value;
    var i := if HasSystemRole(s, org, key) then SystemRole(s, org, key) else newId;
    assert IsSystemRole(s'.roles[i], org, key);
  }

  /** Making sure of the system roles changes no grant and no permission. */
  lemma EnsureKeeps(s: State, org: string, ids: Ids)
    requires Valid(s) && Ensure(s, org, ids).Ok?
    ensures var s' := Ensure(s, org, ids).value;
      && Valid(s') && s'.grants == s.grants
      && HasSystemRole(s', org, ROUTE_VIEWER) && HasSystemRole(s', org, ROUTE_OPERATOR)
      && RolesKept(s, s') && SamePermissions(s, s')
  {
    var s1 := EnsureOne(s, org, ROUTE_VIEWER, ids.viewer).value;
    EnsureOneKeeps(s, org, ROUTE_VIEWER, ids.viewer);
    EnsureOneKeeps(s1, org, ROUTE_OPERATOR, ids.operator);
    var s' := Ensure(s, org, ids).value;
    var v := SystemRole(s1, org, ROUTE_VIEWER);
    assert IsSystemRole(s'.roles[v], org, ROUTE_VIEWER);
  }

  // ----- single operations -----

  lemma CreateRoleKeeps(s: State, org: string, id: nat, name: string, permissions: set<Permission>)
    requires Valid(s) && CreateRole(s, org, id, name, permissions).Ok?
    ensures Valid(CreateRole(s, org, id, name, permissions).value)
    ensures RolesKept(s, CreateRole(s, org, id, name, permissions).value)
  {
    hide Trim, Lower, NameClash;
  }

  lemma RoleReplaced(s: State, id: nat, r: Role)
    requires Valid(s) && id in s.roles
    requires r.org == s.roles[id].org && r.systemKey == s.roles[id].systemKey && r.isSystem == s.roles[id].isSystem
    ensures Valid(s.(roles := s.roles[id := r])) && RolesKept(s, s.(roles := s.roles[id := r]))
  {
    var s' := s.(roles := s.roles[id := r]);
    forall i, j | i in s'.roles && j in s'.roles && SameKey(s'.roles[i], s'.roles[j]) ensures i == j {
      assert SameKey(s.roles[i], s.roles[j]);
    }
    forall i | i in s'.grants ensures LinkOk(s', s'.grants[i]) {
      assert LinkOk(s, s.grants[i]);
    }
  }

  lemma SyncedKeeps(s: State, id: nat)
    requires Valid(s) && id in s.roles
    ensures Valid(Synced(s, id))
  {
    var s' := Synced(s, id);
    forall i, j | i in s'.grants && j in s'.grants && SameSubject(s'.grants[i], s'.grants[j]) ensures i == j {
      assert SameSubject(s.grants[i], s.grants[j]);
    }
    forall i | i in s'.grants ensures LinkOk(s', s'.grants[i]) {
      assert LinkOk(s, s.grants[i]);
    }
  }

  /** Updating a role re-synchronises every linked copy and leaves every other grant and role,
      and every other grant's effective permissions, unchanged. */
  lemma UpdateRoleSyncs(s: State, org: string, id: nat, name: Option<string>, patch: map<Permission, bool>)
    requires Valid(s) && UpdateRole(s, org, id, name, patch).Ok?
    ensures var s' := UpdateRole(s, org, id, name, patch).value;
      && Valid(s') && RolesKept(s, s') && s'.grants.Keys == s.grants.Keys && s'.roles.Keys == s.roles.Keys
      && s'.roles[id].permissions == Patched(s.roles[id].permissions, patch)
      && (forall j :: j in s.roles && j != id ==> s'.roles[j] == s.roles[j])
      && (forall i :: i in s.grants ==> GrantSynced(s, s', id, s.grants[i], s'.grants[i]))
  {
    hide Trim, Lower, NameClash, Valid;
    ReplaceAndSync(s, id, UpdatedRole(s.roles[id], name, patch));
  }

  lemma ReplaceAndSync(s: State, id: nat, r: Role)
    requires Valid(s) && id in s.roles
    requires r.org == s.roles[id].org && r.systemKey == s.roles[id].systemKey && r.isSystem == s.roles[id].isSystem
    ensures var s' := Synced(s.(roles := s.roles[id := r]), id);
      && Valid(s') && RolesKept(s, s')
      && (forall i :: i in s.grants ==> GrantSynced(s, s', id, s.grants[i], s'.grants[i]))
  {
    var s1 := s.(roles := s.roles[id := r]);
    RoleReplaced(s, id, r);
    SyncedKeeps(s1, id);
  }

  /** A grant of the updated role has the role's permissions and label, stored and effective;
      any other grant is the same row with the same effective permissions. */
  predicate GrantSynced(s: State, s': State, id: nat, g: Grant, g': Grant)
    requires id in s'.roles
  {
    if g.roleId == Some(id)
    then g' == g.(permissions := s'.roles[id].permissions, roleLabel := LabelOf(s'.roles[id]))
         && Effective(s', g') == s'.roles[id].permissions
    else g' == g && Effective(s', g') == Effective(s, g)
  }

  /** A role is only deleted when it is no system role and no grant of any kind refers to it. */
  lemma DeleteRoleKeeps(s: State, org: string, id: nat)
    requires Valid(s) && DeleteRole(s, org, id).Ok?
    ensures var s' := DeleteRole(s, org, id).value;
      && Valid(s') && !s.roles[id].isSystem
      && (forall i :: i in s.grants ==> Effective(s', s'.grants[i]) == Effective(s, s.grants[i]))
      && (forall i :: i in s.roles && i != id ==> i in s'.roles && s'.roles[i] == s.roles[i])
  {
    var s' := DeleteRole(s, org, id).value;
    forall i | i in s'.grants ensures LinkOk(s', s'.grants[i]) {
      assert LinkOk(s, s.grants[i]);
    }
    forall i, j | i in s'.roles && j in s'.roles && SameKey(s'.roles[i], s'.roles[j]) ensures i == j {
      assert SameKey(s.roles[i], s.roles[j]);
    }
  }

  lemma ResolveKeeps(s: State, org: string, roleId: Option<nat>, roleLabel: string, ids: Ids)
    requires Valid(s) && ResolveRole(s, org, roleId, roleLabel, ids).Ok?
    ensures var r := ResolveRole(s, org, roleId, roleLabel, ids).value;
      && Valid(r.0) && RolesKept(s, r.0) && r.0.grants == s.grants && SamePermissions(s, r.0)
      && (r.1.Some? ==> r.1.value in r.0.roles && r.0.roles[r.1.value].org == org)
  {
    hide Ensure, Valid;
    if roleId.None? && Ensure(s, org, ids).Ok? {
      EnsureKeeps(s, org, ids);
    }
  }

  lemma PutGrantKeeps(s: State, id: nat, g: Grant)
    requires Valid(s) && LinkOk(s, g)
    requires forall i :: i in s.grants && SameSubject(s.grants[i], g) ==> i == id
    ensures Valid(s.(grants := s.grants[id := g]))
  {
    var s' := s.(grants := s.grants[id := g]);
    forall i | i in s'.grants ensures LinkOk(s', s'.grants[i]) {
      assert i != id ==> LinkOk(s, s.grants[i]);
    }
    forall i, j | i in s'.grants && j in s'.grants && SameSubject(s'.grants[i], s'.grants[j]) ensures i == j {
      assert i != id && j != id ==> SameSubject(s.grants[i], s.grants[j]);
      assert i == id && j != id ==> SameSubject(s.grants[j], g);
    }
  }

  lemma CreateGrantKeeps(s: State, org: string, id: nat, subject: Subject, roleId: Option<nat>, roleLabel: string,
    active: bool, permissions: set<Permission>, ids: Ids)
    requires Valid(s) && CreateGrant(s, org, id, subject, roleId, roleLabel, active, permissions, ids).Ok?
    ensures var s' := CreateGrant(s, org, id, subject, roleId, roleLabel, active, permissions, ids).value;
      && Valid(s') && RolesKept(s, s')
      && (forall i :: i in s.grants ==> i in s'.grants && s'.grants[i] == s.grants[i])
      && id in s'.grants && s'.grants[id].subject == Normalized(subject) && s'.grants[id].org == org
      && s'.grants[id].permissions == Effective(s', s'.grants[id])
  {
    hide ResolveRole, Valid, SubjectTaken, Trim, Lower;
    ResolveKeeps(s, org, roleId, roleLabel, ids);
    var (s1, role) := ResolveRole(s, org, roleId, roleLabel, ids).value;
    var s' := CreateGrant(s, org, id, subject, roleId, roleLabel, active, permissions, ids).value;
    NewGrantShape(s, org, id, subject, roleId, roleLabel, active, permissions, ids);
    SubjectFree(s, org, id, s'.grants[id]);
    PutGrantKeeps(s1, id, s'.grants[id]);
  }

  /** The grant a creation adds: linked with the role's permissions, or unlinked with its own. */
  lemma NewGrantShape(s: State, org: string, id: nat, subject: Subject, roleId: Option<nat>, roleLabel: string,
    active: bool, permissions: set<Permission>, ids: Ids)
    requires CreateGrant(s, org, id, subject, roleId, roleLabel, active, permissions, ids).Ok?
    requires ResolveRole(s, org, roleId, roleLabel, ids).Ok?
    ensures var s' := CreateGrant(s, org, id, subject, roleId, roleLabel, active, permissions, ids).value;
      var (s1, role) := ResolveRole(s, org, roleId, roleLabel, ids).value;
      && id in s'.grants && s' == s1.(grants := s1.grants[id := s'.grants[id]])
      && id !in s.grants && !SubjectTaken(s, org, Normalized(subject))
      && s'.grants[id].org == org && s'.grants[id].subject == Normalized(subject)
      && (if role.Some? && role.value in s1.roles
          then s'.grants[id].roleId == role && s'.grants[id].permissions == s1.roles[role.value].permissions
          else s'.grants[id].roleId == None)
  {
    hide ResolveRole, SubjectTaken, Normalized, LabelOf, Or;
  }

  lemma SubjectFree(s: State, org: string, id: nat, g: Grant)
    requires !SubjectTaken(s, org, g.subject) && g.org == org
    ensures forall i :: i in s.grants && SameSubject(s.grants[i], g) ==> i == id
  {
  }

  lemma UpdateGrantKeeps(s: State, org: string, id: nat, change: GrantChange, ids: Ids)
    requires Valid(s) && UpdateGrant(s, org, id, change, ids).Ok?
    ensures var s' := UpdateGrant(s, org, id, change, ids).value;
      && Valid(s') && RolesKept(s, s') && SamePermissions(s, s') && s'.grants.Keys == s.grants.Keys
      && (forall i :: i in s.grants && i != id ==> s'.grants[i] == s.grants[i])
      && s'.grants[id].subject == s.grants[id].subject && s'.grants[id].org == org
  {
    var s' := UpdateGrant(s, org, id, change, ids).value;
    var s1 := s;
    if change.role.Some? {
      ResolveKeeps(s, org, change.role.value.0, change.role.value.1, ids);
      s1 := ResolveRole(s, org, change.role.value.0, change.role.value.1, ids).value.0;
    }
    assert LinkOk(s, s.grants[id]);
    assert s' == s1.(grants := s1.grants[id := s'.grants[id]]);
    forall i | i in s1.grants && SameSubject(s1.grants[i], s'.grants[id]) ensures i == id {
      assert SameSubject(s.grants[i], s.grants[id]);
    }
    PutGrantKeeps(s1, id, s'.grants[id]);
  }

  lemma DeleteGrantKeeps(s: State, org: string, id: nat)
    requires Valid(s) && DeleteGrant(s, org, id).Ok?
    ensures Valid(DeleteGrant(s, org, id).value)
  {
    var s' := DeleteGrant(s, org, id).value;
    forall i | i in s'.grants ensures LinkOk(s', s'.grants[i]) {
      assert LinkOk(s, s.grants[i]);
    }
    forall i, j | i in s'.grants && j in s'.grants && SameSubject(s'.grants[i], s'.grants[j]) ensures i == j {
      assert SameSubject(s.grants[i], s.grants[j]);
    }
  }

  // ----- backfill -----

  lemma AssignKeepsEffective(s: State, org: string, g: Grant)
    requires Valid(s) && HasSystemRole(s, org, ROUTE_VIEWER) && HasSystemRole(s, org, ROUTE_OPERATOR)
    requires LinkOk(s, g)
    ensures var g' := AssignIn(s, org, g);
      && Effective(s, g') == Effective(s, g) && LinkOk(s, g') && SameSubject(g', g)
      && g'.active == g.active && g'.permissions == g.permissions
      && AssignIn(s, org, g') == g'
  {
  }

  /** The backfill links and relabels grants without changing any grant's effective
      permissions, activity or subject. */
  lemma BackfillKeepsEffective(s: State, org: string, ids: Ids)
    requires Valid(s) && Backfill(s, org, ids).Ok?
    ensures var s' := Backfill(s, org, ids).value;
      && Valid(s') && RolesKept(s, s') && SamePermissions(s, s') && s'.grants.Keys == s.grants.Keys
      && (forall i :: i in s.grants ==>
            && Effective(s', s'.grants[i]) == Effective(s, s.grants[i])
            && SameSubject(s'.grants[i], s.grants[i]) && s'.grants[i].active == s.grants[i].active)
  {
    EnsureKeeps(s, org, ids);
    var s1 := Ensure(s, org, ids).value;
    var s' := AssignAll(s1, org);
    forall i | i in s.grants
      ensures Effective(s', s'.grants[i]) == Effective(s, s.grants[i]) && LinkOk(s', s'.grants[i])
      ensures SameSubject(s'.grants[i], s.grants[i]) && s'.grants[i].active == s.grants[i].active
    {
      assert LinkOk(s, s.grants[i]) && LinkOk(s1, s1.grants[i]);
      AssignKeepsEffective(s1, org, s1.grants[i]);
    }
    forall i, j | i in s'.grants && j in s'.grants && SameSubject(s'.grants[i], s'.grants[j]) ensures i == j {
      assert SameSubject(s.grants[i], s.grants[j]);
    }
  }

  lemma EnsureAgain(s: State, org: string, key: string, newId: nat)
    requires UniqueKeys(s) && HasSystemRole(s, org, key) && s.roles[SystemRole(s, org, key)].isSystem
    ensures EnsureOne(s, org, key, newId) == Ok(s)
  {
    var i := SystemRole(s, org, key);
    assert s.roles[i := s.roles[i].(isSystem := true)] == s.roles;
  }

  lemma EnsuredOneIsSystem(s: State, org: string, key: string, newId: nat)
    requires UniqueKeys(s) && EnsureOne(s, org, key, newId).Ok? && UniqueKeys(EnsureOne(s, org, key, newId).value)
    ensures var s' := EnsureOne(s, org, key, newId).value;
      HasSystemRole(s', org, key) && s'.roles[SystemRole(s', org, key)].isSystem
  {
    hide SystemName, SystemPermissions, NameTaken, UniqueKeys;
    var s' := EnsureOne(s, org, key, newId).value;
    SystemRoleIs(s', org, key, if HasSystemRole(s, org, key) then SystemRole(s, org, key) else newId);
  }

  lemma StaysSystem(s: State, s': State, org: string, key: string)
    requires UniqueKeys(s') && RolesKept(s, s')
    requires HasSystemRole(s, org, key) && s.roles[SystemRole(s, org, key)].isSystem
    ensures HasSystemRole(s', org, key) && s'.roles[SystemRole(s', org, key)].isSystem
  {
    SystemRoleIs(s', org, key, SystemRole(s, org, key));
  }

  lemma EnsuredIsSystem(s: State, org: string, ids: Ids)
    requires Valid(s) && Ensure(s, org, ids).Ok?
    ensures var s' := Ensure(s, org, ids).value;
      && HasSystemRole(s', org, ROUTE_VIEWER) && s'.roles[SystemRole(s', org, ROUTE_VIEWER)].isSystem
      && HasSystemRole(s', org, ROUTE_OPERATOR) && s'.roles[SystemRole(s', org, ROUTE_OPERATOR)].isSystem
  {
    hide EnsureOne, RolesKept, SamePermissions, UniqueKeys, HasSystemRole, SystemRole;
    var s1, s' := EnsureOne(s, org, ROUTE_VIEWER, ids.viewer).value, Ensure(s, org, ids).value;
    EnsureOneKeeps(s, org, ROUTE_VIEWER, ids.viewer);
    EnsureOneKeeps(s1, org, ROUTE_OPERATOR, ids.operator);
    EnsuredOneIsSystem(s, org, ROUTE_VIEWER, ids.viewer);
    EnsuredOneIsSystem(s1, org, ROUTE_OPERATOR, ids.operator);
    StaysSystem(s1, s', org, ROUTE_VIEWER);
  }

  /** The assignment, grant by grant. */
  lemma AssignedEach(s: State, org: string, viewer: nat, operator: nat)
    requires HasSystemRole(s, org, ROUTE_VIEWER) && viewer == SystemRole(s, org, ROUTE_VIEWER)
    requires HasSystemRole(s, org, ROUTE_OPERATOR) && operator == SystemRole(s, org, ROUTE_OPERATOR)
    ensures AssignAll(s, org).grants.Keys == s.grants.Keys && AssignAll(s, org).roles == s.roles
    ensures forall i :: i in s.grants && s.grants[i].org == org && s.grants[i].roleId.None? ==>
      AssignAll(s, org).grants[i] == Assign(s.grants[i], viewer, s.roles[viewer], operator, s.roles[operator])
    ensures forall i :: i in s.grants && (s.grants[i].org != org || s.grants[i].roleId.Some?) ==>
      AssignAll(s, org).grants[i] == s.grants[i]
  {
    hide Assign;
  }

  /** Running the backfill again changes nothing. */
  lemma BackfillIdempotent(s: State, org: string, ids: Ids, again: Ids)
    requires Valid(s) && Backfill(s, org, ids).Ok?
    ensures Backfill(Backfill(s, org, ids).value, org, again) == Backfill(s, org, ids)
  {
    hide EnsureOne, SystemPermissions, SystemName, RolesKept, SamePermissions, Lower, Effective;
    EnsureKeeps(s, org, ids);
    EnsuredIsSystem(s, org, ids);
    var s1 := Ensure(s, org, ids).value;
    var s' := AssignAll(s1, org);
    BackfillKeepsEffective(s, org, ids);
    SystemRoleIs(s', org, ROUTE_VIEWER, SystemRole(s1, org, ROUTE_VIEWER));
    SystemRoleIs(s', org, ROUTE_OPERATOR, SystemRole(s1, org, ROUTE_OPERATOR));
    EnsureAgain(s', org, ROUTE_VIEWER, again.viewer);
    EnsureAgain(s', org, ROUTE_OPERATOR, again.operator);
    forall i | i in s'.grants ensures AssignIn(s', org, s'.grants[i]) == s'.grants[i] {
      assert LinkOk(s1, s1.grants[i]);
      AssignKeepsEffective(s1, org, s1.grants[i]);
    }
    assert AssignAll(s', org).grants == s'.grants;
  }

  /** The rows of one organization are the same in both states. */
  predicate AgreeOn(s: State, t: State, org: string) {
    && (forall i :: i in s.roles && s.roles[i].org == org ==> i in t.roles && t.roles[i] == s.roles[i])
    && (forall i :: i in t.roles && t.roles[i].org == org ==> i in s.roles && s.roles[i] == t.roles[i])
    && (forall i :: i in s.grants && s.grants[i].org == org ==> i in t.grants && t.grants[i] == s.grants[i])
    && (forall i :: i in t.grants && t.grants[i].org == org ==> i in s.grants && s.grants[i] == t.grants[i])
  }

  lemma AgreeKey(s: State, t: State, org: string, key: string)
    requires UniqueKeys(s) && UniqueKeys(t) && AgreeOn(s, t, org)
    ensures HasSystemRole(s, org, key) <==> HasSystemRole(t, org, key)
    ensures HasSystemRole(s, org, key) ==> SystemRole(s, org, key) == SystemRole(t, org, key)
  {
    if HasSystemRole(s, org, key) {
      SystemRoleIs(t, org, key, SystemRole(s, org, key));
    }
    if HasSystemRole(t, org, key) {
      SystemRoleIs(s, org, key, SystemRole(t, org, key));
    }
  }

  lemma EnsureOneAgrees(s: State, t: State, org: string, key: string, newId: nat)
    requires Valid(s) && Valid(t) && AgreeOn(s, t, org)
    requires EnsureOne(s, org, key, newId).Ok? && EnsureOne(t, org, key, newId).Ok?
    ensures AgreeOn(EnsureOne(s, org, key, newId).value, EnsureOne(t, org, key, newId).value, org)
  {
    hide SystemName, SystemPermissions, Lower;
    AgreeKey(s, t, org, key);
  }

  lemma AssignAgrees(s: State, t: State, org: string)
    requires Valid(s) && Valid(t) && AgreeOn(s, t, org)
    requires HasSystemRole(s, org, ROUTE_VIEWER) && HasSystemRole(s, org, ROUTE_OPERATOR)
    requires HasSystemRole(t, org, ROUTE_VIEWER) && HasSystemRole(t, org, ROUTE_OPERATOR)
    ensures AgreeOn(AssignAll(s, org), AssignAll(t, org), org)
  {
    AgreeKey(s, t, org, ROUTE_VIEWER);
    AgreeKey(s, t, org, ROUTE_OPERATOR);
    forall g: Grant ensures AssignIn(s, org, g) == AssignIn(t, org, g) && AssignIn(s, org, g).org == g.org { }
  }

  /** A backfill reads and writes only its own organization's rows. */
  lemma BackfillAgrees(s: State, t: State, org: string, ids: Ids)
    requires Valid(s) && Valid(t) && AgreeOn(s, t, org)
    requires Backfill(s, org, ids).Ok? && Backfill(t, org, ids).Ok?
    ensures AgreeOn(Backfill(s, org, ids).value, Backfill(t, org, ids).value, org)
  {
    EnsureOneKeeps(s, org, ROUTE_VIEWER, ids.viewer);
    EnsureOneKeeps(t, org, ROUTE_VIEWER, ids.viewer);
    EnsureOneAgrees(s, t, org, ROUTE_VIEWER, ids.viewer);
    var s1, t1 := EnsureOne(s, org, ROUTE_VIEWER, ids.viewer).value, EnsureOne(t, org, ROUTE_VIEWER, ids.viewer).value;
    EnsureOneAgrees(s1, t1, org, ROUTE_OPERATOR, ids.operator);
    EnsureKeeps(s, org, ids);
    EnsureKeeps(t, org, ids);
    AssignAgrees(Ensure(s, org, ids).value, Ensure(t, org, ids).value, org);
  }

  lemma EnsureOneElsewhere(s: State, org: string, key: string, newId: nat, other: string)
    requires Valid(s) && EnsureOne(s, org, key, newId).Ok? && other != org
    ensures AgreeOn(s, EnsureOne(s, org, key, newId).value, other)
  {
  }

  lemma AssignElsewhere(s: State, org: string, other: string)
    requires HasSystemRole(s, org, ROUTE_VIEWER) && HasSystemRole(s, org, ROUTE_OPERATOR) && other != org
    ensures AgreeOn(s, AssignAll(s, org), other)
  {
    forall g: Grant ensures AssignIn(s, org, g).org == g.org && (g.org == other ==> AssignIn(s, org, g) == g) { }
  }

  lemma BackfillElsewhere(s: State, org: string, ids: Ids, other: string)
    requires Valid(s) && Backfill(s, org, ids).Ok? && other != org
    ensures AgreeOn(s, Backfill(s, org, ids).value, other)
  {
    var s1 := EnsureOne(s, org, ROUTE_VIEWER, ids.viewer).value;
    EnsureOneKeeps(s, org, ROUTE_VIEWER, ids.viewer);
    EnsureOneElsewhere(s, org, ROUTE_VIEWER, ids.viewer, other);
    EnsureOneElsewhere(s1, org, ROUTE_OPERATOR, ids.operator, other);
    EnsureKeeps(s, org, ids);
    var s2 := Ensure(s, org, ids).value;
    AgreeTransitive(s, s1, s2, other);
    AssignElsewhere(s2, org, other);
    AgreeTransitive(s, s2, AssignAll(s2, org), other);
  }

  predicate DistinctOrgs(orgs: seq<(string, Ids)>) {
    forall i, j :: 0 <= i < j < |orgs| ==> orgs[i].0 != orgs[j].0
  }

  lemma {:induction false} BackfillAllKeeps(s: State, orgs: seq<(string, Ids)>, other: string)
    requires Valid(s) && BackfillAll(s, orgs).Ok?
    requires forall i :: 0 <= i < |orgs| ==> orgs[i].0 != other
    ensures Valid(BackfillAll(s, orgs).value) && AgreeOn(s, BackfillAll(s, orgs).value, other)
  {
    if orgs != [] {
      var init, last := orgs[..|orgs| - 1], orgs[|orgs| - 1];
      BackfillAllKeeps(s, init, other);
      var t := BackfillAll(s, init).value;
      BackfillKeepsEffective(t, last.0, last.1);
      BackfillElsewhere(t, last.0, last.1, other);
    }
  }

  /** The startup pass over all organizations gives each one what the administrator's pass
      gives it alone. */
  lemma {:induction false} StartupMatchesAdmin(s: State, orgs: seq<(string, Ids)>, k: nat)
    requires Valid(s) && DistinctOrgs(orgs) && k < |orgs|
    requires BackfillAll(s, orgs).Ok? && Backfill(s, orgs[k].0, orgs[k].1).Ok?
    ensures AgreeOn(Backfill(s, orgs[k].0, orgs[k].1).value, BackfillAll(s, orgs).value, orgs[k].0)
  {
    var init, last := orgs[..|orgs| - 1], orgs[|orgs| - 1];
    var t := BackfillAll(s, init).value;
    if k == |init| {
      BackfillAllKeeps(s, init, last.0);
      BackfillAgrees(s, t, last.0, last.1);
    } else {
      StartupMatchesAdmin(s, init, k);
      BackfillAllValid(s, init);
      BackfillElsewhere(t, last.0, last.1, orgs[k].0);
      AgreeTransitive(Backfill(s, orgs[k].0, orgs[k].1).value, t, BackfillAll(s, orgs).value, orgs[k].0);
    }
  }

  lemma AgreeTransitive(s: State, t: State, u: State, org: string)
    requires AgreeOn(s, t, org) && AgreeOn(t, u, org)
    ensures AgreeOn(s, u, org)
  {
  }

  lemma {:induction false} BackfillAllValid(s: State, orgs: seq<(string, Ids)>)
    requires Valid(s) && BackfillAll(s, orgs).Ok?
    ensures Valid(BackfillAll(s, orgs).value)
  {
    if orgs != [] {
      var init, last := orgs[..|orgs| - 1], orgs[|orgs| - 1];
      BackfillAllValid(s, init);
      BackfillKeepsEffective(BackfillAll(s, init).value, last.0, last.1);
    }
  }

  // ----- runs -----

  datatype Command =
    | EnsureRoles(org: string, ids: Ids)
    | MakeRole(org: string, id: nat, name: string, permissions: set<Permission>)
    | ChangeRole(org: string, id: nat, newName: Option<string>, patch: map<Permission, bool>)
    | DropRole(org: string, id: nat)
    | MakeGrant(org: string, id: nat, subject: Subject, roleId: Option<nat>, roleLabel: string, active: bool,
                permissions: set<Permission>, ids: Ids)
    | ChangeGrant(org: string, id: nat, change: GrantChange, ids: Ids)
    | DropGrant(org: string, id: nat)
    | ListGrants(org: string, ids: Ids)

  ghost function Outcome(s: State, c: Command): Result<State> {
    match c
    case EnsureRoles(org, ids) => Ensure(s, org, ids)
    case MakeRole(org, id, name, permissions) => CreateRole(s, org, id, name, permissions)
    case ChangeRole(org, id, newName, patch) => UpdateRole(s, org, id, newName, patch)
    case DropRole(org, id) => DeleteRole(s, org, id)
    case MakeGrant(org, id, subject, roleId, roleLabel, active, permissions, ids) =>
      CreateGrant(s, org, id, subject, roleId, roleLabel, active, permissions, ids)
    case ChangeGrant(org, id, change, ids) => UpdateGrant(s, org, id, change, ids)
    case DropGrant(org, id) => DeleteGrant(s, org, id)
    case ListGrants(org, ids) => Backfill(s, org, ids)
  }

  /** A rejected request is rolled back. */
  ghost function After(s: State, c: Command): State {
    if Outcome(s, c).Ok? then Outcome(s, c).value else s
  }

  ghost function Run(commands: seq<Command>): State {
    if commands == [] then State(map[], map[])
    else After(Run(commands[..|commands| - 1]), commands[|commands| - 1])
  }

  /** Every system role is still there, with its organization and key. */
  predicate SystemRolesKept(s: State, s': State) {
    forall i :: i in s.roles && s.roles[i].isSystem ==>
      && i in s'.roles && s'.roles[i].isSystem
      && s'.roles[i].org == s.roles[i].org && s'.roles[i].systemKey == s.roles[i].systemKey
  }

  lemma CommandKeeps(s: State, c: Command)
    requires Valid(s)
    ensures Valid(After(s, c)) && SystemRolesKept(s, After(s, c))
  {
    if Outcome(s, c).Ok? {
      match c {
        case EnsureRoles(org, ids) => EnsureKeeps(s, org, ids);
        case MakeRole(org, id, name, permissions) => CreateRoleKeeps(s, org, id, name, permissions);
        case ChangeRole(org, id, newName, patch) => UpdateRoleSyncs(s, org, id, newName, patch);
        case DropRole(org, id) => DeleteRoleKeeps(s, org, id);
        case MakeGrant(org, id, subject, roleId, roleLabel, active, permissions, ids) =>
          CreateGrantKeeps(s, org, id, subject, roleId, roleLabel, active, permissions, ids);
        case ChangeGrant(org, id, change, ids) => UpdateGrantKeeps(s, org, id, change, ids);
        case DropGrant(org, id) => DeleteGrantKeeps(s, org, id);
        case ListGrants(org, ids) => BackfillKeepsEffective(s, org, ids);
      }
    }
  }

  lemma {:induction false} RunValid(commands: seq<Command>)
    ensures Valid(Run(commands))
  {
    if commands != [] {
      RunValid(commands[..|commands| - 1]);
      CommandKeeps(Run(commands[..|commands| - 1]), commands[|commands| - 1]);
    }
  }

  /** Over any run, every linked grant refers to an existing role of its own organization, and
      its effective permissions are that role's current ones whatever the stored copy says. */
  lemma LinkedGrantsFollowRoles(commands: seq<Command>, i: nat)
    requires i in Run(commands).grants && Run(commands).grants[i].roleId.Some?
    ensures var s := Run(commands);
      var g := s.grants[i];
      && g.roleId.value in s.roles && s.roles[g.roleId.value].org == g.org
      && Effective(s, g) == s.roles[g.roleId.value].permissions
  {
    RunValid(commands);
    assert LinkOk(Run(commands), Run(commands).grants[i]);
  }

  /** Over any run, a system role that exists at some point exists at every later point. */
  lemma {:induction false} SystemRolesStay(commands: seq<Command>, k: nat)
    requires k <= |commands|
    ensures SystemRolesKept(Run(commands[..k]), Run(commands))
    decreases |commands|
  {
    if k == |commands| {
      assert commands[..k] == commands;
    } else {
      var init, last := commands[..|commands| - 1], commands[|commands| - 1];
      assert init[..k] == commands[..k];
      SystemRolesStay(init, k);
      RunValid(init);
      CommandKeeps(Run(init), last);
    }
  }

  /** The stored copy of a linked grant differs from its role. */
  predicate Drifted(s: State, g: Grant) {
    g.roleId.Some? && g.roleId.value in s.roles && g.permissions != s.roles[g.roleId.value].permissions
  }

  predicate InStep(s: State, i: nat) {
    i in s.grants ==> !Drifted(s, s.grants[i])
  }

  lemma OthersStayInStep(s: State, c: Command, i: nat)
    requires Valid(s) && InStep(s, i) && !c.ChangeGrant?
    ensures InStep(After(s, c), i)
  {
    hide UpdateRole, Backfill, Ensure, Trim, Lower, NameClash, SubjectTaken;
    if Outcome(s, c).Ok? {
      match c {
        case EnsureRoles(org, ids) => EnsureKeeps(s, org, ids);
        case MakeRole(org, id, name, permissions) =>
        case ChangeRole(org, id, newName, patch) => UpdateRoleSyncs(s, org, id, newName, patch);
        case DropRole(org, id) => DeleteRoleKeeps(s, org, id);
        case MakeGrant(org, id, subject, roleId, roleLabel, active, permissions, ids) =>
          CreateGrantKeeps(s, org, id, subject, roleId, roleLabel, active, permissions, ids);
          ResolveKeeps(s, org, roleId, roleLabel, ids);
        case DropGrant(org, id) =>
        case ListGrants(org, ids) => BackfillInStep(s, org, ids, i);
      }
      if i in s.grants { assert LinkOk(s, s.grants[i]); }
    }
  }

  lemma ChangeDriftsIff(s: State, org: string, id: nat, change: GrantChange, ids: Ids, i: nat)
    requires Valid(s) && InStep(s, i) && UpdateGrant(s, org, id, change, ids).Ok?
    ensures !InStep(UpdateGrant(s, org, id, change, ids).value, i) <==>
      && id == i && change.role.None? && s.grants[i].roleId.Some?
      && Patched(s.grants[i].permissions, change.patch) != s.grants[i].permissions
  {
    hide Trim, Lower, ResolveRole, RolesKept;
    UpdateGrantKeeps(s, org, id, change, ids);
    assert LinkOk(s, s.grants[id]);
    if i in s.grants { assert LinkOk(s, s.grants[i]); }
  }

  /** The only request that can make a stored copy drift from its role is a permission patch
      without role fields on that very grant, and it does so exactly when the patch changes the
      stored permissions. */
  lemma DriftOnlyByPatch(s: State, c: Command, i: nat)
    requires Valid(s) && InStep(s, i)
    ensures !InStep(After(s, c), i) <==>
      && c.ChangeGrant? && c.id == i && Outcome(s, c).Ok?
      && c.change.role.None? && s.grants[i].roleId.Some?
      && Patched(s.grants[i].permissions, c.change.patch) != s.grants[i].permissions
  {
    hide InStep, Patched, UpdateGrant;
    if !c.ChangeGrant? {
      OthersStayInStep(s, c, i);
    } else if Outcome(s, c).Ok? {
      ChangeDriftsIff(s, c.org, c.id, c.change, c.ids, i);
    }
  }

  lemma BackfillInStep(s: State, org: string, ids: Ids, i: nat)
    requires Valid(s) && InStep(s, i) && Backfill(s, org, ids).Ok?
    ensures InStep(Backfill(s, org, ids).value, i)
  {
    EnsureKeeps(s, org, ids);
    var s1 := Ensure(s, org, ids).value;
    if i in s.grants {
      assert LinkOk(s, s.grants[i]);
      assert s1.grants[i] == s.grants[i];
      AssignInStep(s1, org, s1.grants[i]);
    }
  }

  lemma AssignInStep(s: State, org: string, g: Grant)
    requires HasSystemRole(s, org, ROUTE_VIEWER) && HasSystemRole(s, org, ROUTE_OPERATOR) && !Drifted(s, g)
    ensures !Drifted(s, AssignIn(s, org, g))
  {
  }
}
