/** The role and grant handlers as they work on the tables, each proved against its
    specification in BotAccess. A handler that fails leaves the tables as they were. */
module AccessStore {
  import opened Text
  import opened BotAccess

  class Tables {
    var roles: map<nat, Role>
    var grants: map<nat, Grant>

    constructor ()
      ensures Rows() == State(map[], map[])
    {
      roles, grants := map[], map[];
    }

    function Rows(): State
      reads this
    {
      State(roles, grants)
    }

    method FindSystemRole(org: string, key: string) returns (r: Option<nat>)
      requires UniqueKeys(Rows())
      ensures r.Some? <==> HasSystemRole(Rows(), org, key)
      ensures r.Some? ==> r.value == SystemRole(Rows(), org, key)
    {
      var todo := roles.Keys;
      while todo != {}
        invariant todo <= roles.Keys
        invariant forall i :: i in roles && i !in todo ==> !IsSystemRole(roles[i], org, key)
        decreases |todo|
      {
        var i :| i in todo;
        if IsSystemRole(roles[i], org, key) {
          SystemRoleIs(Rows(), org, key, i);
          return Some(i);
        }
        todo := todo - {i};
      }
      r := None;
    }

    method EnsureSystemRole(org: string, key: string, newId: nat) returns (r: Option<nat>)
      requires Valid(Rows())
      modifies this`roles
      ensures r.Some? <==> EnsureOne(old(Rows()), org, key, newId).Ok?
      ensures r.None? ==> Rows() == old(Rows())
      ensures r.Some? ==>
                && Rows() == EnsureOne(old(Rows()), org, key, newId).value
                && HasSystemRole(Rows(), org, key) && r.value == SystemRole(Rows(), org, key)
    {
      r := FindSystemRole(org, key);
      if r.Some? {
        if !roles[r.value].isSystem {
          roles := roles[r.value := roles[r.value].(isSystem := true)];
        } else {
          assert roles[r.value := roles[r.value].(isSystem := true)] == roles;
        }
      } else if newId in roles || NameTaken(Rows(), org, SystemName(key)) {
        return None;
      } else {
        roles := roles[newId := Role(org, SystemName(key), true, Some(key), SystemPermissions(key))];
        r := Some(newId);
      }
      EnsureOneKeeps(old(Rows()), org, key, newId);
      SystemRoleIs(Rows(), org, key, r.value);
    }

    /** `ensure_bot_access_system_roles`. */
    method EnsureSystemRoles(org: string, ids: Ids) returns (r: Option<(nat, nat)>)
      requires Valid(Rows())
      modifies this`roles
      ensures r.Some? <==> Ensure(old(Rows()), org, ids).Ok?
      ensures r.None? ==> Rows() == old(Rows())
      ensures r.Some? ==>
                && Rows() == Ensure(old(Rows()), org, ids).value && Valid(Rows())
                && HasSystemRole(Rows(), org, ROUTE_VIEWER) && r.value.0 == SystemRole(Rows(), org, ROUTE_VIEWER)
                && HasSystemRole(Rows(), org, ROUTE_OPERATOR) && r.value.1 == SystemRole(Rows(), org, ROUTE_OPERATOR)
    {
      var before := roles;
      var viewer := EnsureSystemRole(org, ROUTE_VIEWER, ids.viewer);
      if viewer.None? {
        return None;
      }
      EnsureOneKeeps(old(Rows()), org, ROUTE_VIEWER, ids.viewer);
      var operator := EnsureSystemRole(org, ROUTE_OPERATOR, ids.operator);
      if operator.None? {
        roles := before;
        return None;
      }
      EnsureKeeps(old(Rows()), org, ids);
      EnsureOneKeeps(EnsureOne(old(Rows()), org, ROUTE_VIEWER, ids.viewer).value, org, ROUTE_OPERATOR, ids.operator);
      SystemRoleIs(Rows(), org, ROUTE_VIEWER, viewer.value);
      r := Some((viewer.value, operator.value));
    }

    /** `_backfill_bot_access_role_assignments`: the unlinked grants of one organization in turn. */
    method BackfillAssignments(org: string, ids: Ids) returns (ok: bool)
      requires Valid(Rows())
      modifies this
      ensures ok <==> Backfill(old(Rows()), org, ids).Ok?
      ensures Rows() == if ok then Backfill(old(Rows()), org, ids).value else old(Rows())
    {
      var system := EnsureSystemRoles(org, ids);
      if system.None? {
        return false;
      }
      AssignUnlinked(org, system.value.0, system.value.1);
      ok := true;
    }

    method AssignUnlinked(org: string, viewer: nat, operator: nat)
      requires HasSystemRole(Rows(), org, ROUTE_VIEWER) && viewer == SystemRole(Rows(), org, ROUTE_VIEWER)
      requires HasSystemRole(Rows(), org, ROUTE_OPERATOR) && operator == SystemRole(Rows(), org, ROUTE_OPERATOR)
      modifies this`grants
      ensures Rows() == AssignAll(old(Rows()), org)
    {
      hide Assign, SystemRole, HasSystemRole, AssignAll, AssignIn;
      ghost var target := AssignAll(Rows(), org).grants;
      AssignedEach(Rows(), org, viewer, operator);
      var todo := set i | i in grants && grants[i].org == org && grants[i].roleId.None?;
      while todo != {}
        invariant grants.Keys == target.Keys && todo <= grants.Keys
        invariant forall i :: i in todo ==>
                    grants[i] == old(grants)[i] && grants[i].org == org && grants[i].roleId.None?
        invariant forall i :: i in grants && i !in todo ==> grants[i] == target[i]
        decreases |todo|
      {
        var i :| i in todo;
        grants := grants[i := Assign(grants[i], viewer, roles[viewer], operator, roles[operator])];
        todo := todo - {i};
      }
      assert grants == target;
    }

    /** `_sync_linked_bot_role_grants`. */
    method SyncLinkedGrants(id: nat)
      requires id in roles
      modifies this`grants
      ensures Rows() == Synced(old(Rows()), id)
    {
      var todo := set i | i in grants && grants[i].roleId == Some(id);
      ghost var all := todo;
      while todo != {}
        invariant grants.Keys == old(grants).Keys && todo <= all <= grants.Keys
        invariant forall i :: i in grants ==>
                    grants[i] == if i in all && i !in todo then Synced(old(Rows()), id).grants[i] else old(grants)[i]
        decreases |todo|
      {
        var i :| i in todo;
        grants := grants[i := grants[i].(permissions := roles[id].permissions, roleLabel := LabelOf(roles[id]))];
        todo := todo - {i};
      }
      assert grants == Synced(old(Rows()), id).grants;
    }

    method UpdateBotAccessRole(org: string, id: nat, name: Option<string>,
        patch: map<Permission, bool>) returns (ok: bool)
      modifies this
      ensures ok <==> UpdateRole(old(Rows()), org, id, name, patch).Ok?
      ensures Rows() == if ok then UpdateRole(old(Rows()), org, id, name, patch).value else old(Rows())
    {
      if id !in roles || roles[id].org != org {
        return false;
      }
      if name.Some? {
        if Trim(name.value) == "" || NameClash(Rows(), org, name.value, Some(id)) {
          return false;
        }
      }
      roles := roles[id := UpdatedRole(roles[id], name, patch)];
      SyncLinkedGrants(id);
      ok := true;
    }

    method DeleteBotAccessRole(org: string, id: nat) returns (ok: bool)
      modifies this`roles
      ensures ok <==> DeleteRole(old(Rows()), org, id).Ok?
      ensures Rows() == if ok then DeleteRole(old(Rows()), org, id).value else old(Rows())
    {
      if id !in roles || roles[id].org != org {
        return false;
      }
      var linked := set i | i in grants && grants[i].roleId == Some(id);
      if roles[id].isSystem || |linked| > 0 {
        assert |linked| > 0 ==> Assigned(Rows(), id) by {
          if |linked| > 0 { var i :| i in linked; }
        }
        return false;
      }
      assert !Assigned(Rows(), id) by {
        if i :| i in grants && grants[i].roleId == Some(id) { assert i in linked; }
      }
      roles := roles - {id};
      ok := true;
    }

    /** `_resolve_payload_bot_role`. */
    method ResolvePayloadRole(org: string, roleId: Option<nat>, roleLabel: string,
        ids: Ids) returns (r: Option<Option<nat>>)
      requires Valid(Rows())
      modifies this`roles
      ensures r.Some? <==> ResolveRole(old(Rows()), org, roleId, roleLabel, ids).Ok?
      ensures r.None? ==> Rows() == old(Rows())
      ensures r.Some? ==> ResolveRole(old(Rows()), org, roleId, roleLabel, ids).value == (Rows(), r.value)
    {
      if roleId.Some? {
        return if roleId.value in roles && roles[roleId.value].org == org then Some(roleId) else None;
      }
      var viewer := roleLabel in {"route_viewer", "viewer"};
      if !viewer && roleLabel !in {"route_operator", "operator", "route_manager"} {
        return Some(None);
      }
      var system := EnsureSystemRoles(org, ids);
      if system.None? {
        return None;
      }
      r := Some(Some(if viewer then system.value.0 else system.value.1));
    }

    method CreateBotGrant(org: string, id: nat, subject: Subject, roleId: Option<nat>, roleLabel: string, active: bool,
      permissions: set<Permission>, ids: Ids) returns (ok: bool)
      requires Valid(Rows())
      modifies this
      ensures ok <==> CreateGrant(old(Rows()), org, id, subject, roleId, roleLabel, active, permissions, ids).Ok?
      ensures Rows() == if ok
                        then CreateGrant(old(Rows()), org, id, subject, roleId, roleLabel, active, permissions,
                            ids).value
                        else old(Rows())
    {
      var who := Normalized(subject);
      if who.objectId == "" || SubjectTaken(Rows(), org, who) || id in grants {
        return false;
      }
      var role := ResolvePayloadRole(org, roleId, roleLabel, ids);
      if role.None? {
        return false;
      }
      ResolveKeeps(old(Rows()), org, roleId, roleLabel, ids);
      if role.value.Some? {
        var linked := roles[role.value.value];
        grants := grants[id := Grant(org, who, role.value, LabelOf(linked), active, linked.permissions)];
      } else {
        grants := grants[id := Grant(org, who, None, Or(roleLabel, "custom"), active, permissions)];
      }
      ok := true;
    }

    method InferBotRole(org: string, permissions: set<Permission>) returns (r: string)
      requires UniqueKeys(Rows())
      ensures r == InferLabel(Rows(), org, permissions)
    {
      var viewer := FindSystemRole(org, ROUTE_VIEWER);
      if viewer.Some? && roles[viewer.value].permissions == permissions {
        return ROUTE_VIEWER;
      }
      var operator := FindSystemRole(org, ROUTE_OPERATOR);
      if operator.Some? && roles[operator.value].permissions == permissions {
        return ROUTE_OPERATOR;
      }
      r := "custom";
    }

    method PatchBotGrant(g: Grant, patch: map<Permission, bool>) returns (g': Grant)
      requires UniqueKeys(Rows())
      ensures g' == PatchGrant(Rows(), g, patch)
    {
      g' := g;
      if patch != map[] {
        g' := g'.(permissions := Patched(g.permissions, patch));
        if g'.roleId.None? {
          var inferred := InferBotRole(g'.org, g'.permissions);
          g' := g'.(roleLabel := inferred);
        }
      }
    }

    method UpdateBotGrant(org: string, id: nat, change: GrantChange, ids: Ids) returns (ok: bool)
      requires Valid(Rows())
      modifies this
      ensures ok <==> UpdateGrant(old(Rows()), org, id, change, ids).Ok?
      ensures Rows() == if ok then UpdateGrant(old(Rows()), org, id, change, ids).value else old(Rows())
    {
      if id !in grants || grants[id].org != org {
        return false;
      }
      var g := grants[id];
      if change.active.Some? {
        g := g.(active := change.active.value);
      }
      if change.role.Some? {
        var (roleId, roleLabel) := change.role.value;
        var role := ResolvePayloadRole(org, roleId, roleLabel, ids);
        if role.None? {
          return false;
        }
        ResolveKeeps(old(Rows()), org, roleId, roleLabel, ids);
        g := Relinked(Rows(), g, role.value, roleLabel);
        if g.roleId.None? {
          g := PatchBotGrant(g, change.patch);
        }
      } else {
        g := PatchBotGrant(g, change.patch);
      }
      grants := grants[id := g];
      ok := true;
    }
  }
}
