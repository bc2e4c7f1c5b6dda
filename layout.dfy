/**
 * The page frame: which navigation links appear, the header's user label and
 * the logout sequence.
 */
module Layout {
  import opened Js
  import Session
  import Roles
  import Users

  datatype NavLink = DashboardLink | UsersLink | RolesLink | ProfileLink

  /** The links of the navigation bar, in order. Dashboard and Profile are
      always there; Users and Roles are each guarded by their permission or admin. */
  function NavLinks(auth: Session.Auth): (links: seq<NavLink>)
    ensures UsersLink in links <==> auth.isAdmin || auth.hasPermission("manage_users")
    ensures RolesLink in links <==> auth.isAdmin || auth.hasPermission("manage_roles")
    ensures DashboardLink in links && ProfileLink in links
    ensures 2 <= |links| <= 4 && links[0] == DashboardLink && links[|links| - 1] == ProfileLink
    ensures UsersLink in links && RolesLink in links ==> links == [DashboardLink, UsersLink, RolesLink, ProfileLink]
    ensures |links| == 2 + (if UsersLink in links then 1 else 0) + (if RolesLink in links then 1 else 0)
  {
    [DashboardLink]
      + (if auth.isAdmin || auth.hasPermission("manage_users") then [UsersLink] else [])
      + (if auth.isAdmin || auth.hasPermission("manage_roles") then [RolesLink] else [])
      + [ProfileLink]
  }

  /** The header's role part, `user?.role?.name || 'unknown'`: a bare role
      string has no `name` and shows as 'unknown'. */
  function HeaderRole(user: Option<Session.SessionUser>): (shown: string)
    ensures shown != ""
    ensures user.Some? && user.value.role.RoleRecord? && user.value.role.name != "" ==> shown == user.value.role.name
    ensures user.None? || !user.value.role.RoleRecord? ==> shown == "unknown"
    ensures user.Some? && user.value.role.RoleRecord? && user.value.role.name == "" ==> shown == "unknown"
  {
    if user.Some? && user.value.role.RoleRecord? then Or(user.value.role.name, "unknown") else "unknown"
  }

  /** The header text `{user?.name} ({...})`; an absent user renders no name. */
  function Header(user: Option<Session.SessionUser>): (shown: string)
    ensures user.Some? ==>
      |shown| == |user.value.name| + |HeaderRole(user)| + 3 && shown[..|user.value.name|] == user.value.name
    ensures user.None? ==> shown == " (unknown)"
    ensures |shown| >= |HeaderRole(user)| + 3
            && shown[|shown| - |HeaderRole(user)| - 3..] == " (" + HeaderRole(user) + ")"
  {
    var name := if user.Some? then user.value.name else "";
    var suffix := " (" + HeaderRole(user) + ")";
    assert |suffix| == |HeaderRole(user)| + 3;
    Halves(name, suffix);
    name + suffix
  }

  /** Cutting a concatenation at the seam gives back its two parts. */
  lemma Halves(a: string, b: string)
    ensures (a + b)[..|a|] == a && (a + b)[|a|..] == b
  {
  }

  /** A session whose role is a bare string is labelled 'unknown' in the header,
      even though the dashboard shows that string as the role. */
  lemma StringRoleHeader(user: Session.SessionUser)
    requires user.role.RoleName?
    ensures Header(Some(user)) == user.name + " (unknown)"
  {
  }

  /** The effects of `handleLogout`, in the order they run. */
  datatype Effect = Logout | Navigate(path: string)

  /** Logging out clears the session before navigating to the login page. */
  function HandleLogout(): (effects: seq<Effect>)
    ensures |effects| == 2 && effects[0] == Logout && effects[1] == Navigate("/login")
  {
    [Logout, Navigate("/login")]
  }

  /** Across pages: the Users link is shown exactly to those the Users page
      admits and fetches for. */
  lemma UsersLinkMatchesGate(auth: Session.Auth)
    ensures UsersLink in NavLinks(auth) <==> Users.CanManageUsers(auth)
    ensures UsersLink !in NavLinks(auth) <==> Users.ShowsAccessDenied(auth)
  {
  }

  /** Across pages: a non-administrator holding `manage_roles` is shown the
      Roles link, yet the Roles page refuses them whatever its state. */
  lemma RolesLinkLeadsToDenial(auth: Session.Auth, loading: bool, roles: seq<Roles.Role>,
                               newRole: Roles.Draft, editing: Option<Roles.Role>)
    requires !auth.isAdmin && auth.hasPermission("manage_roles")
    ensures RolesLink in NavLinks(auth)
    ensures Roles.Render(auth.isAdmin, loading, roles, newRole, editing) == Roles.PermissionDenied
  {
  }
}
