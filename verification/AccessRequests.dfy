/** What an administrator's access request achieves, and when it is accepted: which role a grant ends up
    with, what it confers, and what the backfill links. */
module AccessRequests {
  import opened Text
  import opened BotAccess

  predicate IsViewerLabel(roleLabel: string) {
    roleLabel == "viewer" || roleLabel == "route_viewer"
  }

  predicate IsOperatorLabel(roleLabel: string) {
    roleLabel == "operator" || roleLabel == "route_operator" || roleLabel == "route_manager"
  }

  // ----- the role a label gives -----

  /** What a system role confers when it is made. */
  predicate Confers(key: string, permissions: set<Permission>) {
    && (key == ROUTE_VIEWER ==> permissions == {ViewRoutes, RevealWebhookUrls})
    && (key == ROUTE_OPERATOR ==> forall p: Permission :: p in permissions)
  }

  /** The label a grant carries: its role's key, or "role", or without a role the one that was asked. */
  predicate IsLabelled(s: State, g: Grant, asked: string) {
    if g.roleId.Some? then
      g.roleId.value in s.roles
      && var key := s.roles[g.roleId.value].systemKey;
         g.roleLabel == if key.Some? && key.value != "" then key.value else "role"
    else g.roleLabel == if asked != "" then asked else "custom"
  }

  /** The grant is linked to the organization's role with this key: the one there was, with the
      permissions it had, or a new one with the permissions such a role is made with. */
  predicate LinkedToSystem(s: State, s': State, org: string, g: Grant, key: string) {
    && g.roleId.Some? && g.roleId.value in s'.roles && IsSystemRole(s'.roles[g.roleId.value], org, key)
    && (HasSystemRole(s, org, key) ==>
          g.roleId.value in s.roles && s'.roles[g.roleId.value].permissions == s.roles[g.roleId.value].permissions)
    && (!HasSystemRole(s, org, key) ==> Confers(key, s'.roles[g.roleId.value].permissions))
  }

  /** A role id gives that very role, a label without one the system role it names, and anything else
      no role. */
  predicate LinkedAsAsked(s: State, s': State, org: string, g: Grant, roleId: Option<nat>, roleLabel: string) {
    if roleId.Some? then g.roleId == roleId && roleId.value in s.roles && s.roles[roleId.value].org == org
    else if IsViewerLabel(roleLabel) then LinkedToSystem(s, s', org, g, ROUTE_VIEWER)
    else if IsOperatorLabel(roleLabel) then LinkedToSystem(s, s', org, g, ROUTE_OPERATOR)
    else g.roleId == None
  }

  lemma SystemConfers(key: string)
    ensures Confers(key, SystemPermissions(key))
  {
    forall p: Permission ensures p in AllPermissions() {
      match p
      case ViewRoutes =>
      case _ =>
    }
  }

  lemma EnsureOneGives(s: State, org: string, key: string, newId: nat)
    requires Valid(s) && EnsureOne(s, org, key, newId).Ok? && (key == ROUTE_VIEWER || key == ROUTE_OPERATOR)
    ensures var s' := EnsureOne(s, org, key, newId).value;
      && HasSystemRole(s', org, key)
      && (HasSystemRole(s, org, key) ==> SystemRole(s', org, key) == SystemRole(s, org, key))
      && (!HasSystemRole(s, org, key) ==> Confers(key, s'.roles[SystemRole(s', org, key)].permissions))
      && (forall other :: other != key && !HasSystemRole(s, org, other) ==> !HasSystemRole(s', org, other))
  {
    hide NameTaken, SystemName, Confers, SystemPermissions;
    SystemConfers(key);
    EnsureOneKeeps(s, org, key, newId);
    var s' := EnsureOne(s, org, key, newId).value;
    SystemRoleIs(s', org, key, if HasSystemRole(s, org, key) then SystemRole(s, org, key) else newId);
    forall other | other != key && !HasSystemRole(s, org, other) ensures !HasSystemRole(s', org, other) {
      forall i | i in s'.roles ensures !IsSystemRole(s'.roles[i], org, other) {
        if i in s.roles {
          assert !IsSystemRole(s.roles[i], org, other);
        }
      }
    }
  }

  /** What the two system roles are after they were made sure of. */
  lemma EnsureGives(s: State, org: string, ids: Ids, key: string)
    requires Valid(s) && Ensure(s, org, ids).Ok? && (key == ROUTE_VIEWER || key == ROUTE_OPERATOR)
    ensures var s' := Ensure(s, org, ids).value;
      && HasSystemRole(s', org, key)
      && (HasSystemRole(s, org, key) ==>
            SystemRole(s', org, key) in s.roles
            && s'.roles[SystemRole(s', org, key)].permissions == s.roles[SystemRole(s', org, key)].permissions)
      && (!HasSystemRole(s, org, key) ==> Confers(key, s'.roles[SystemRole(s', org, key)].permissions))
  {
    hide EnsureOne, Confers, HasSystemRole, IsSystemRole, UniqueKeys;
    var s1 := EnsureOne(s, org, ROUTE_VIEWER, ids.viewer).value;
    EnsureOneKeeps(s, org, ROUTE_VIEWER, ids.viewer);
    EnsureOneGives(s, org, ROUTE_VIEWER, ids.viewer);
    EnsureOneKeeps(s1, org, ROUTE_OPERATOR, ids.operator);
    EnsureOneGives(s1, org, ROUTE_OPERATOR, ids.operator);
    var s' := Ensure(s, org, ids).value;
    if key == ROUTE_VIEWER {
      var i := SystemRole(s1, org, key);
      SystemStays(s1, s', org, key);
      assert s'.roles[i].permissions == s1.roles[i].permissions;
    } else {
      SystemBefore(s, s1, org, key);
    }
  }

  lemma SystemStays(s: State, s': State, org: string, key: string)
    requires Valid(s') && HasSystemRole(s, org, key) && RolesKept(s, s')
    ensures HasSystemRole(s', org, key) && SystemRole(s', org, key) == SystemRole(s, org, key)
  {
    SystemRoleIs(s', org, key, SystemRole(s, org, key));
  }

  lemma SystemBefore(s: State, s1: State, org: string, key: string)
    requires Valid(s1) && RolesKept(s, s1) && SamePermissions(s, s1)
    ensures HasSystemRole(s, org, key) ==>
      && HasSystemRole(s1, org, key) && SystemRole(s1, org, key) == SystemRole(s, org, key)
      && SystemRole(s, org, key) in s.roles
      && s1.roles[SystemRole(s, org, key)].permissions == s.roles[SystemRole(s, org, key)].permissions
  {
    if HasSystemRole(s, org, key) {
      SystemStays(s, s1, org, key);
    }
  }

  lemma ResolveGives(s: State, org: string, g: Grant, roleId: Option<nat>, roleLabel: string, ids: Ids)
    requires Valid(s) && ResolveRole(s, org, roleId, roleLabel, ids).Ok?
    requires g.roleId == ResolveRole(s, org, roleId, roleLabel, ids).value.1
    ensures LinkedAsAsked(s, ResolveRole(s, org, roleId, roleLabel, ids).value.0, org, g, roleId, roleLabel)
  {
    hide Ensure, Confers, Valid;
    if roleId.None? && Ensure(s, org, ids).Ok? {
      EnsureGives(s, org, ids, ROUTE_VIEWER);
      EnsureGives(s, org, ids, ROUTE_OPERATOR);
    }
  }

  lemma LinkedKept(s: State, s1: State, s': State, org: string, g: Grant, roleId: Option<nat>, roleLabel: string)
    requires LinkedAsAsked(s, s1, org, g, roleId, roleLabel) && s'.roles == s1.roles
    ensures LinkedAsAsked(s, s', org, g, roleId, roleLabel)
  {
  }

  /** The grant is to the same kind of subject with the same trimmed lower-case object id. */
  predicate IsFor(g: Grant, subject: Subject) {
    (g.subject.User? <==> subject.User?) && g.subject.objectId == Lower(Trim(subject.objectId))
  }

  /** A created grant is to the asked subject, active as asked and linked as asked; a linked one confers
      what its role does, an unlinked one exactly the requested permissions. */
  lemma CreateGrantGives(s: State, org: string, id: nat, subject: Subject, roleId: Option<nat>, roleLabel: string,
    active: bool, permissions: set<Permission>, ids: Ids)
    requires Valid(s) && CreateGrant(s, org, id, subject, roleId, roleLabel, active, permissions, ids).Ok?
    ensures var s' := CreateGrant(s, org, id, subject, roleId, roleLabel, active, permissions, ids).value;
      && id in s'.grants && s'.grants[id].active == active && IsFor(s'.grants[id], subject)
      && LinkedAsAsked(s, s', org, s'.grants[id], roleId, roleLabel)
      && (if s'.grants[id].roleId.Some? then
            s'.grants[id].roleId.value in s'.roles
            && Effective(s', s'.grants[id]) == s'.roles[s'.grants[id].roleId.value].permissions
          else Effective(s', s'.grants[id]) == permissions)
      && IsLabelled(s', s'.grants[id], roleLabel)
  {
    hide ResolveRole, Valid, SubjectTaken, Trim, Lower, LinkedAsAsked;
    ResolveKeeps(s, org, roleId, roleLabel, ids);
    var (s1, role) := ResolveRole(s, org, roleId, roleLabel, ids).value;
    var s' := CreateGrant(s, org, id, subject, roleId, roleLabel, active, permissions, ids).value;
    var g := s'.grants[id];
    ResolveGives(s, org, g, roleId, roleLabel, ids);
    LinkedKept(s, s1, s', org, g, roleId, roleLabel);
  }

  /** The permissions after a patch: what the patch says, and otherwise what there was. */
  predicate PatchedTo(before: set<Permission>, after: set<Permission>, patch: map<Permission, bool>) {
    forall p: Permission :: p in after <==> if p in patch then patch[p] else p in before
  }

  /** An updated grant has the asked activity; a request with role fields links it as asked, one
      without keeps its link; and what is stored on a grant without a role is patched as asked. */
  lemma UpdateGrantGives(s: State, org: string, id: nat, change: GrantChange, ids: Ids)
    requires Valid(s) && UpdateGrant(s, org, id, change, ids).Ok?
    ensures var s' := UpdateGrant(s, org, id, change, ids).value;
      && id in s.grants && id in s'.grants
      && s'.grants[id].active == (if change.active.Some? then change.active.value else s.grants[id].active)
      && (if change.role.Some?
          then LinkedAsAsked(s, s', org, s'.grants[id], change.role.value.0, change.role.value.1)
          else s'.grants[id].roleId == s.grants[id].roleId)
      && (s'.grants[id].roleId.None? || change.role.None? ==>
            PatchedTo(s.grants[id].permissions, s'.grants[id].permissions, change.patch))
      && (s'.grants[id].roleId.Some? && change.role.Some? ==>
            s'.grants[id].roleId.value in s'.roles
            && s'.grants[id].permissions == s'.roles[s'.grants[id].roleId.value].permissions)
      && (change.role.Some? && (s'.grants[id].roleId.Some? || change.patch == map[]) ==>
            IsLabelled(s', s'.grants[id], change.role.value.1))
  {
    hide ResolveRole, Valid, Trim, Lower, LinkedAsAsked, InferLabel;
    var s' := UpdateGrant(s, org, id, change, ids).value;
    if change.role.Some? {
      var (roleId, roleLabel) := change.role.value;
      ResolveKeeps(s, org, roleId, roleLabel, ids);
      ResolveGives(s, org, s'.grants[id], roleId, roleLabel, ids);
      LinkedKept(s, ResolveRole(s, org, roleId, roleLabel, ids).value.0, s', org, s'.grants[id], roleId, roleLabel);
    }
  }

  /** An unlinked grant whose permissions are patched is labelled after the system role that has exactly
      them, the viewer's first, and else as custom. */
  lemma PatchRelabels(s: State, org: string, id: nat, change: GrantChange, ids: Ids)
    requires Valid(s) && UpdateGrant(s, org, id, change, ids).Ok?
    requires change.patch != map[] && UpdateGrant(s, org, id, change, ids).value.grants[id].roleId.None?
    ensures var s' := UpdateGrant(s, org, id, change, ids).value;
      var g := s'.grants[id];
      g.roleLabel == if SystemRoleHas(s', org, ROUTE_VIEWER, g.permissions) then "route_viewer"
                     else if SystemRoleHas(s', org, ROUTE_OPERATOR, g.permissions) then "route_operator"
                     else "custom"
  {
    hide ResolveRole, UniqueKeys, LinksOk, UniqueSubjects, Trim, Lower, SystemRole, HasSystemRole;
    var s' := UpdateGrant(s, org, id, change, ids).value;
    var s1 := s;
    if change.role.Some? {
      ResolveKeeps(s, org, change.role.value.0, change.role.value.1, ids);
      s1 := ResolveRole(s, org, change.role.value.0, change.role.value.1, ids).value.0;
    }
    SameRoles(s1, s', org);
  }

  lemma SameRoles(s: State, s': State, org: string)
    requires s.roles == s'.roles && UniqueKeys(s)
    ensures forall key, permissions ::
      SystemRoleHas(s, org, key, permissions) == SystemRoleHas(s', org, key, permissions)
  {
    forall key, permissions
      ensures SystemRoleHas(s, org, key, permissions) == SystemRoleHas(s', org, key, permissions)
    {
      if HasSystemRole(s, org, key) {
        SystemRoleIs(s', org, key, SystemRole(s, org, key));
      }
      if HasSystemRole(s', org, key) {
        SystemRoleIs(s, org, key, SystemRole(s', org, key));
      }
    }
  }

  // ----- when a request is accepted -----

  /** A missing system role can be added: its name and its row id are free. */
  predicate CanAdd(s: State, org: string, key: string, newId: nat) {
    HasSystemRole(s, org, key) || (newId !in s.roles && !NameTaken(s, org, SystemName(key)))
  }

  predicate CanEnsure(s: State, org: string, ids: Ids) {
    && CanAdd(s, org, ROUTE_VIEWER, ids.viewer) && CanAdd(s, org, ROUTE_OPERATOR, ids.operator)
    && (ids.viewer == ids.operator ==> HasSystemRole(s, org, ROUTE_VIEWER) || HasSystemRole(s, org, ROUTE_OPERATOR))
  }

  predicate IsRoleOf(s: State, org: string, id: nat) {
    id in s.roles && s.roles[id].org == org
  }

  predicate IsGrantOf(s: State, org: string, id: nat) {
    id in s.grants && s.grants[id].org == org
  }

  /** No other role of the organization has this name but for case. */
  predicate NameFree(s: State, org: string, name: string, own: Option<nat>) {
    Trim(name) != "" && forall i ::
      i in s.roles && s.roles[i].org == org && own != Some(i) ==> Lower(s.roles[i].name) != Lower(Trim(name))
  }

  predicate CanResolve(s: State, org: string, roleId: Option<nat>, roleLabel: string, ids: Ids) {
    if roleId.Some? then IsRoleOf(s, org, roleId.value)
    else IsViewerLabel(roleLabel) || IsOperatorLabel(roleLabel) ==> CanEnsure(s, org, ids)
  }

  /** The request finds its rows in the organization, needs nothing that is taken, and deletes no role
      that is a system role or in use. */
  predicate Acceptable(s: State, c: Command) {
    match c
    case EnsureRoles(org, ids) => CanEnsure(s, org, ids)
    case MakeRole(org, id, name, permissions) => NameFree(s, org, name, None) && id !in s.roles
    case ChangeRole(org, id, newName, patch) =>
      IsRoleOf(s, org, id) && (newName.Some? ==> NameFree(s, org, newName.value, Some(id)))
    case DropRole(org, id) =>
      IsRoleOf(s, org, id) && !s.roles[id].isSystem && forall i :: i in s.grants ==> s.grants[i].roleId != Some(id)
    case MakeGrant(org, id, subject, roleId, roleLabel, active, permissions, ids) =>
      && Lower(Trim(subject.objectId)) != "" && id !in s.grants
      && (forall i :: i in s.grants ==> !(s.grants[i].org == org && IsFor(s.grants[i], subject)))
      && CanResolve(s, org, roleId, roleLabel, ids)
    case ChangeGrant(org, id, change, ids) =>
      IsGrantOf(s, org, id)
      && (change.role.Some? ==> CanResolve(s, org, change.role.value.0, change.role.value.1, ids))
    case DropGrant(org, id) => IsGrantOf(s, org, id)
    case ListGrants(org, ids) => CanEnsure(s, org, ids)
  }

  lemma EnsureIff(s: State, org: string, ids: Ids)
    requires Valid(s)
    ensures Ensure(s, org, ids).Ok? <==> CanEnsure(s, org, ids)
  {
    hide Confers, Lower, SystemPermissions;
    var r := EnsureOne(s, org, ROUTE_VIEWER, ids.viewer);
    if r.Ok? {
      var s1 := r.value;
      EnsureOneKeeps(s, org, ROUTE_VIEWER, ids.viewer);
      EnsureOneGives(s, org, ROUTE_VIEWER, ids.viewer);
      SystemBefore(s, s1, org, ROUTE_OPERATOR);
      assert HasSystemRole(s1, org, ROUTE_OPERATOR) <==> HasSystemRole(s, org, ROUTE_OPERATOR);
      NameTakenStays(s, org, ids.viewer);
    }
  }

  lemma NameTakenStays(s: State, org: string, newId: nat)
    requires EnsureOne(s, org, ROUTE_VIEWER, newId).Ok?
    ensures NameTaken(EnsureOne(s, org, ROUTE_VIEWER, newId).value, org, SystemName(ROUTE_OPERATOR))
       <==> NameTaken(s, org, SystemName(ROUTE_OPERATOR))
  {
    hide SystemPermissions, HasSystemRole;
    var s1, name := EnsureOne(s, org, ROUTE_VIEWER, newId).value, SystemName(ROUTE_OPERATOR);
    assert SystemName(ROUTE_VIEWER)[6] == 'V' && name[6] == 'O';
    if i :| i in s.roles && s.roles[i].org == org && s.roles[i].name == name {
      assert i in s1.roles && s1.roles[i].org == org && s1.roles[i].name == name;
    }
  }

  lemma ResolveIff(s: State, org: string, roleId: Option<nat>, roleLabel: string, ids: Ids)
    requires Valid(s)
    ensures ResolveRole(s, org, roleId, roleLabel, ids).Ok? <==> CanResolve(s, org, roleId, roleLabel, ids)
  {
    hide Ensure, CanEnsure, Valid;
    EnsureIff(s, org, ids);
    if Ensure(s, org, ids).Ok? {
      EnsureKeeps(s, org, ids);
    }
  }

  /** A request is accepted exactly then. */
  lemma OutcomeIff(s: State, c: Command)
    requires Valid(s)
    ensures Outcome(s, c).Ok? <==> Acceptable(s, c)
  {
    hide Ensure, CanEnsure, ResolveRole, CanResolve, Valid, Trim, Lower;
    match c
    case EnsureRoles(org, ids) => EnsureIff(s, org, ids);
    case MakeRole(org, id, name, permissions) =>
    case ChangeRole(org, id, newName, patch) =>
    case DropRole(org, id) =>
    case MakeGrant(org, id, subject, roleId, roleLabel, active, permissions, ids) =>
      ResolveIff(s, org, roleId, roleLabel, ids);
    case ChangeGrant(org, id, change, ids) =>
      if change.role.Some? {
        ResolveIff(s, org, change.role.value.0, change.role.value.1, ids);
      }
    case DropGrant(org, id) =>
    case ListGrants(org, ids) =>
      EnsureIff(s, org, ids);
      if Ensure(s, org, ids).Ok? {
        EnsureKeeps(s, org, ids);
      }
  }

  /** What the requests about roles, and a deleted grant, change. */
  lemma RoleRequestsGive(s: State, c: Command)
    requires Valid(s) && Outcome(s, c).Ok?
    ensures var s' := After(s, c);
      match c
      case MakeRole(org, id, name, permissions) =>
        s' == s.(roles := s.roles[id := Role(org, Trim(name), false, None, permissions)])
      case ChangeRole(org, id, newName, patch) =>
        && id in s'.roles && PatchedTo(s.roles[id].permissions, s'.roles[id].permissions, patch)
        && s'.roles[id].(permissions := s.roles[id].permissions)
             == s.roles[id].(name := if newName.Some? then Trim(newName.value) else s.roles[id].name)
      case DropRole(org, id) => s' == s.(roles := s.roles - {id})
      case DropGrant(org, id) => s' == s.(grants := s.grants - {id})
      case _ => true
  {
    hide Trim, Lower, NameClash, Valid, Ensure, ResolveRole, CreateGrant, UpdateGrant, Backfill;
  }

  // ----- the backfill -----

  /** The backfill links an unlinked grant of the organization exactly when its label names a system
      role and its permissions are that role's; labels no longer in use become "custom". */
  lemma BackfillLinks(s: State, org: string, ids: Ids, i: nat)
    requires Valid(s) && Backfill(s, org, ids).Ok? && i in s.grants
    ensures var s' := Backfill(s, org, ids).value;
      && i in s'.grants
      && HasSystemRole(s', org, ROUTE_VIEWER) && HasSystemRole(s', org, ROUTE_OPERATOR)
      && var g, g' := s.grants[i], s'.grants[i];
         if g.org != org || g.roleId.Some? then g' == g
         else if IsViewerLabel(g.roleLabel) && g.permissions == s'.roles[SystemRole(s', org, ROUTE_VIEWER)].permissions
         then LinkedToSystem(s, s', org, g', ROUTE_VIEWER) && g'.roleLabel == ROUTE_VIEWER
         else if IsOperatorLabel(g.roleLabel)
                 && g.permissions == s'.roles[SystemRole(s', org, ROUTE_OPERATOR)].permissions
         then LinkedToSystem(s, s', org, g', ROUTE_OPERATOR) && g'.roleLabel == ROUTE_OPERATOR
         else g' == g.(roleLabel := if g.roleLabel in {"viewer", "operator", "route_manager"} then "custom"
                                    else g.roleLabel)
  {
    hide Confers, Valid, Ensure, RolesKept, SamePermissions, Effective;
    EnsureKeeps(s, org, ids);
    EnsureGives(s, org, ids, ROUTE_VIEWER);
    EnsureGives(s, org, ids, ROUTE_OPERATOR);
    BackfillKeepsEffective(s, org, ids);
    var s1, s' := Ensure(s, org, ids).value, Backfill(s, org, ids).value;
    SystemStays(s1, s', org, ROUTE_VIEWER);
    SystemStays(s1, s', org, ROUTE_OPERATOR);
  }
}
