/**
 * The role-management page: the cached role list, the new-role draft and the
 * role being edited, the handlers that change them, and the admin-only gate.
 * Each handler takes the backend's reply as an input and reports the
 * requests it issued and the toasts it raised.
 */
module Roles {
  import opened Js
  import opened Io
  import Session

  /** A role as the backend returns it; `dbId` is its `_id`. */
  datatype Role = Role(dbId: Option<string>, name: string, permissions: seq<string>)

  /** The new-role form, `{ name, permissions }`, which is also the body POSTed to create a role. */
  datatype Draft = Draft(name: string, permissions: seq<string>)

  /** The requests the page sends to the backend. */
  datatype Request =
    | ListRoles
    | CreateRole(name: string, permissions: seq<string>)
    | UpdateRole(id: string, name: string, permissions: seq<string>)
    | DeleteRole(roleId: Option<string>)

  /** The permissions offered as checkboxes, in display order. */
  const AvailablePermissions: seq<string> :=
    ["view_dashboard", "edit_profile", "manage_users", "manage_roles", "view_reports"]

  const UpdateFallback := "Failed to update role"
  const MissingIdMessage := "Role ID is missing"

  function IsNot(p: string): string -> bool {
    (q: string) => q != p
  }

  /** The permission list after a checkbox click: a missing permission is
      appended at the end, a present one is removed everywhere it occurs. */
  function Toggle(perms: seq<string>, p: string): (r: seq<string>)
    ensures p in r <==> p !in perms
    ensures forall q :: q != p ==> multiset(r)[q] == multiset(perms)[q]
    ensures p !in perms ==> r == perms + [p]
  {
    if p in perms then Filter(perms, IsNot(p)) else perms + [p]
  }

  /** Toggling a permission that was absent twice gives back exactly the original list. */
  lemma {:induction false} ToggleTwiceRestores(perms: seq<string>, p: string)
    requires p !in perms
    ensures Toggle(Toggle(perms, p), p) == perms
  {
    FilterAppend(perms, [p], IsNot(p));
    assert Filter([p], IsNot(p)) == [];
  }

  /** Toggling any permission twice leaves the set of permissions unchanged. */
  lemma ToggleTwiceSameSet(perms: seq<string>, p: string)
    ensures forall q :: q in Toggle(Toggle(perms, p), p) <==> q in perms
  {
    var once := Toggle(perms, p);
    var twice := Toggle(once, p);
    forall q ensures q in twice <==> q in perms {
      if q != p {
        assert multiset(twice)[q] == multiset(once)[q] == multiset(perms)[q];
      }
    }
  }

  /** Toggling a present permission twice does not restore the list: every
      occurrence is removed and one is appended at the end, so the original
      comes back only when the permission occurred once, in last place. */
  lemma TogglePresentTwiceReorders(perms: seq<string>, p: string)
    requires p in perms
    ensures Toggle(Toggle(perms, p), p) == Filter(perms, IsNot(p)) + [p]
    ensures Toggle(Toggle(perms, p), p) == perms ==> perms[|perms| - 1] == p && multiset(perms)[p] == 1
  {
  }

  function HasId(id: Option<string>): Role -> bool {
    (r: Role) => r.dbId == id
  }

  function LacksId(id: Option<string>): Role -> bool {
    (r: Role) => r.dbId != id
  }

  /** The role list after a successful update: `roles.map(role => role._id === id ? updated : role)`. */
  function ReplaceRole(roles: seq<Role>, id: Option<string>, updated: Role): (r: seq<Role>)
    ensures |r| == |roles|
    ensures forall i :: 0 <= i < |roles| ==> r[i] == if roles[i].dbId == id then updated else roles[i]
  {
    ReplaceWhere(roles, HasId(id), updated)
  }

  /** The role list after a successful delete: `roles.filter(role => role._id !== id)`. */
  function RemoveRole(roles: seq<Role>, id: Option<string>): (r: seq<Role>)
    ensures forall x :: x in r ==> x.dbId != id
    ensures forall x: Role :: x.dbId != id ==> multiset(r)[x] == multiset(roles)[x]
    ensures (forall i :: 0 <= i < |roles| ==> roles[i].dbId != id) ==> r == roles
  {
    Filter(roles, LacksId(id))
  }

  /** Removing a role keeps the order of the others: the survivors of a prefix
      come before the survivors of the rest. */
  lemma RemoveRoleKeepsOrder(a: seq<Role>, b: seq<Role>, id: Option<string>)
    ensures RemoveRole(a + b, id) == RemoveRole(a, id) + RemoveRole(b, id)
  {
    FilterAppend(a, b, LacksId(id));
  }

  /** What the page renders. */
  datatype Screen =
    | PermissionDenied
    | Loading
    | Management(roles: seq<Role>, newRole: Draft, editing: Option<Role>)

  /** The page's render: non-administrators are refused before anything else is looked at. */
  function Render(isAdmin: bool, loading: bool, roles: seq<Role>, newRole: Draft, editing: Option<Role>): (s: Screen)
    ensures s == PermissionDenied <==> !isAdmin
    ensures s == Loading <==> isAdmin && loading
    ensures s.Management? ==> s.roles == roles && s.newRole == newRole && s.editing == editing
  {
    if !isAdmin then PermissionDenied
    else if loading then Loading
    else Management(roles, newRole, editing)
  }

  /** The checkbox captions, `permission.replace('_', ' ').toUpperCase()` for each available permission. */
  function PermissionCaptions(): (captions: seq<string>)
    ensures |captions| == |AvailablePermissions|
    ensures forall i :: 0 <= i < |captions| ==>
      captions[i] == Session.PermissionLabel(AvailablePermissions[i])
  {
    seq(|AvailablePermissions|, i requires 0 <= i < |AvailablePermissions| =>
      Session.PermissionLabel(AvailablePermissions[i]))
  }

  /** The state of the page component. */
  class RolesPage {
    var roles: seq<Role>
    var newRole: Draft
    var editingRole: Option<Role>

    constructor ()
      ensures roles == [] && newRole == Draft("", []) && editingRole == None
    {
      roles := [];
      newRole := Draft("", []);
      editingRole := None;
    }

    /** `fetchRoles`: the list is replaced only by a successful reply. */
    method FetchRoles(reply: Reply<seq<Role>>) returns (sent: seq<Request>, toasts: seq<Toast>)
      modifies this
      ensures sent == [ListRoles]
      ensures roles == if Succeeded(reply) then reply.payload else old(roles)
      ensures toasts == if Succeeded(reply) then [] else [Error(ErrorText(reply))]
      ensures newRole == old(newRole) && editingRole == old(editingRole)
    {
      sent := [ListRoles];
      if Succeeded(reply) {
        roles := reply.payload;
        toasts := [];
      } else {
        toasts := [Error(ErrorText(reply))];
      }
    }

    /** `handleCreateRole`: POSTs the draft; on success the returned role is
        appended and the draft is reset. */
    method HandleCreateRole(reply: Reply<Role>) returns (sent: seq<Request>, toasts: seq<Toast>)
      modifies this
      ensures sent == [CreateRole(old(newRole).name, old(newRole).permissions)]
      ensures Succeeded(reply) ==>
        roles == old(roles) + [reply.payload] && newRole == Draft("", [])
        && toasts == [Success("Role created successfully")]
      ensures !Succeeded(reply) ==>
        roles == old(roles) && newRole == old(newRole) && toasts == [Error(ErrorText(reply))]
      ensures editingRole == old(editingRole)
    {
      sent := [CreateRole(newRole.name, newRole.permissions)];
      if Succeeded(reply) {
        roles := roles + [reply.payload];
        newRole := Draft("", []);
        toasts := [Success("Role created successfully")];
      } else {
        toasts := [Error(ErrorText(reply))];
      }
    }

    /** `handleUpdateRole`: refuses a role without `_id` before any request;
        otherwise PUTs the edited name and permissions and, on success, puts
        the returned role in place of every cached role with that `_id`.
        Unlike the other handlers, a failure here reads the body with
        `response.text()`, so the reply's `message` is the whole raw body. */
    method HandleUpdateRole(reply: Reply<Role>) returns (sent: seq<Request>, toasts: seq<Toast>)
      modifies this
      ensures old(editingRole).None? || !Truthy(old(editingRole).value.dbId) ==>
        sent == [] && toasts == [Error(MissingIdMessage)]
        && roles == old(roles) && editingRole == old(editingRole)
      ensures old(editingRole).Some? && Truthy(old(editingRole).value.dbId) ==>
        var e := old(editingRole).value;
        sent == [UpdateRole(e.dbId.value, e.name, e.permissions)]
        && (Succeeded(reply) ==>
              roles == ReplaceRole(old(roles), e.dbId, reply.payload) && editingRole == None
              && toasts == [Success("Role updated successfully")])
        && (!Succeeded(reply) ==>
              roles == old(roles) && editingRole == old(editingRole)
              && toasts == [Error(Or(ErrorText(reply), UpdateFallback))])
      ensures newRole == old(newRole)
    {
      if editingRole.None? || !Truthy(editingRole.value.dbId) {
        sent := [];
        toasts := [Error(MissingIdMessage)];
        return;
      }
      var e := editingRole.value;
      sent := [UpdateRole(e.dbId.value, e.name, e.permissions)];
      if Succeeded(reply) {
        roles := ReplaceRole(roles, e.dbId, reply.payload);
        editingRole := None;
        toasts := [Success("Role updated successfully")];
      } else {
        toasts := [Error(Or(ErrorText(reply), UpdateFallback))];
      }
    }

    /** `handleDeleteRole`: nothing happens unless the user confirms; a
        successful DELETE drops every cached role with that `_id`. */
    method HandleDeleteRole(roleId: Option<string>, confirmed: bool, reply: Reply<()>)
      returns (sent: seq<Request>, toasts: seq<Toast>)
      modifies this
      ensures !confirmed ==> sent == [] && toasts == [] && roles == old(roles)
      ensures confirmed ==> sent == [DeleteRole(roleId)]
      ensures confirmed && Succeeded(reply) ==>
        roles == RemoveRole(old(roles), roleId) && toasts == [Success("Role deleted successfully")]
      ensures confirmed && !Succeeded(reply) ==>
        roles == old(roles) && toasts == [Error(ErrorText(reply))]
      ensures newRole == old(newRole) && editingRole == old(editingRole)
    {
      if !confirmed {
        sent, toasts := [], [];
        return;
      }
      sent := [DeleteRole(roleId)];
      if Succeeded(reply) {
        roles := RemoveRole(roles, roleId);
        toasts := [Success("Role deleted successfully")];
      } else {
        toasts := [Error(ErrorText(reply))];
      }
    }

    /** `handlePermissionToggle`: flips one permission of the edited role (when
        `isEditing`, which the page offers only while a role is being edited) or
        of the new-role draft, and nothing else. */
    method HandlePermissionToggle(permission: string, isEditing: bool)
      requires isEditing ==> editingRole.Some?
      modifies this
      ensures isEditing ==>
        editingRole == Some(old(editingRole).value.(permissions := Toggle(old(editingRole).value.permissions, permission)))
        && newRole == old(newRole)
      ensures !isEditing ==>
        newRole == old(newRole).(permissions := Toggle(old(newRole).permissions, permission))
        && editingRole == old(editingRole)
      ensures roles == old(roles)
    {
      if isEditing {
        var e := editingRole.value;
        editingRole := Some(e.(permissions := Toggle(e.permissions, permission)));
      } else {
        newRole := newRole.(permissions := Toggle(newRole.permissions, permission));
      }
    }

    /** The name input of the create form. */
    method EditNewRoleName(name: string)
      modifies this
      ensures newRole == old(newRole).(name := name)
      ensures roles == old(roles) && editingRole == old(editingRole)
    {
      newRole := newRole.(name := name);
    }

    /** The name input of the edit form, shown only while a role is being edited. */
    method EditEditingName(name: string)
      requires editingRole.Some?
      modifies this
      ensures editingRole == Some(old(editingRole).value.(name := name))
      ensures roles == old(roles) && newRole == old(newRole)
    {
      editingRole := Some(editingRole.value.(name := name));
    }

    /** The Edit button of a row: that role becomes the one being edited. */
    method StartEditing(role: Role)
      modifies this
      ensures editingRole == Some(role)
      ensures roles == old(roles) && newRole == old(newRole)
    {
      editingRole := Some(role);
    }

    /** The Cancel button of the edit form. */
    method CancelEditing()
      modifies this
      ensures editingRole == None
      ensures roles == old(roles) && newRole == old(newRole)
    {
      editingRole := None;
    }
  }
}
