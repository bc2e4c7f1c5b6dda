/**
 * The dashboard: the role label in its two views, the normalisation of the
 * session role's permissions into chips, the statistics derived from the
 * user and role lists, and the choice between the admin and the user view.
 */
module Dashboard {
  import opened Js
  import opened Io
  import opened Session

  const NoRoleLabel := "No role assigned"

  /** The user view's role, `typeof role === 'string' ? role : role?.name || 'No role assigned'`. */
  function UserRoleLabel(role: SessionRole): (shown: string)
    ensures role.RoleName? ==> shown == role.roleName
    ensures role.RoleRecord? && role.name != "" ==> shown == role.name
    ensures shown == NoRoleLabel <==>
      role.NoRole? || (role.RoleRecord? && role.name in {"", NoRoleLabel}) || role == RoleName(NoRoleLabel)
  {
    match role
    case RoleName(s) => s
    case RoleRecord(n, _) => Or(n, NoRoleLabel)
    case NoRole => NoRoleLabel
  }

  /** The admin view's role, `role?.name || 'Admin'`: a bare role string has no
      `name`, so it shows as 'Admin' too. */
  function AdminRoleLabel(role: SessionRole): (shown: string)
    ensures shown != ""
    ensures role.RoleRecord? && role.name != "" ==> shown == role.name
    ensures shown == "Admin" <==> !role.RoleRecord? || role.name in {"", "Admin"}
  {
    match role
    case RoleRecord(n, _) => Or(n, "Admin")
    case _ => "Admin"
  }

  /** The permissions section of the user view. */
  datatype PermissionsView = NotAvailable | NoneAssigned | Chips(labels: seq<string>)

  /** `items.map(p => PermissionLabel(typeof p === 'string' ? p : p.name))`. */
  function ChipLabels(items: seq<PermissionEntry>): (labels: seq<string>)
    ensures |labels| == |items|
    ensures forall i :: 0 <= i < |items| ==> labels[i] == PermissionLabel(EntryToken(items[i]))
  {
    if items == [] then []
    else
      var rest := ChipLabels(items[1..]);
      var r := [PermissionLabel(EntryToken(items[0]))] + rest;
      assert forall i {:trigger r[i]} :: 1 <= i < |items| ==> r[i] == rest[i - 1] && items[i] == items[1..][i - 1];
      r
  }

  /** The permissions section: a bare role string gives no information, a
      missing or falsy `permissions` says none are assigned, a truthy
      non-array gives no chips, and an array gives one chip per element. */
  function Permissions(role: SessionRole): (v: PermissionsView)
    ensures role.RoleName? ==> v == NotAvailable
    ensures role.NoRole? || (role.RoleRecord? && role.permissions.Falsy?) ==> v == NoneAssigned
    ensures role.RoleRecord? && role.permissions.NotAnArray? ==> v == Chips([])
    ensures role.RoleRecord? && role.permissions.Entries? ==>
      v.Chips? && |v.labels| == |role.permissions.items|
      && forall i :: 0 <= i < |v.labels| ==> v.labels[i] == PermissionLabel(EntryToken(role.permissions.items[i]))
  {
    match role
    case RoleName(_) => NotAvailable
    case NoRole => NoneAssigned
    case RoleRecord(_, perms) =>
      match perms
      case Falsy => NoneAssigned
      case NotAnArray => Chips([])
      case Entries(items) => Chips(ChipLabels(items))
  }

  /** Storing permissions as bare tokens or as `{name}` objects makes no difference to the chips. */
  lemma {:induction false} BothFormsSameChips(items: seq<PermissionEntry>, named: seq<PermissionEntry>)
    requires |items| == |named|
    requires forall i :: 0 <= i < |items| ==> EntryToken(items[i]) == EntryToken(named[i])
    ensures ChipLabels(items) == ChipLabels(named)
  {
    if items != [] {
      BothFormsSameChips(items[1..], named[1..]);
    }
  }

  /** The body of `GET /users` or `GET /roles` as far as the statistics read
      it: a JSON array, any other JSON value, or a body `response.json()`
      cannot parse. */
  datatype Listing = JsonArray(length: nat) | NonArrayJson | NotJson

  /** `Array.isArray(list) ? list.length : 0`; an unparsed body never gets here. */
  function Count(l: Listing): (n: nat)
    ensures l.JsonArray? ==> n == l.length
    ensures !l.JsonArray? ==> n == 0
  {
    match l
    case JsonArray(n) => n
    case _ => 0
  }

  datatype Stats = Stats(totalUsers: nat, totalRoles: nat)

  /** A list reply `fetchStats` gets past: ok, with a body that parses. */
  predicate Loaded(r: Reply<Listing>) {
    Succeeded(r) && !r.payload.NotJson?
  }

  /** `fetchStats`: both lists must come back ok and parse, or the error is
      caught before `setStats` and the statistics stay as they were. */
  function NextStats(current: Stats, users: Reply<Listing>, roles: Reply<Listing>): (s: Stats)
    ensures !Loaded(users) || !Loaded(roles) ==> s == current
    ensures Loaded(users) && Loaded(roles) ==>
      s.totalUsers == Count(users.payload) && s.totalRoles == Count(roles.payload)
  {
    if !Succeeded(users) || !Succeeded(roles) then current
    else if users.payload.NotJson? || roles.payload.NotJson? then current
    else Stats(Count(users.payload), Count(roles.payload))
  }

  const StatsFailure := "Failed to fetch statistics"

  /** The toasts of `fetchStats`: one error exactly when either list fails or
      does not parse. */
  function StatsToasts(users: Reply<Listing>, roles: Reply<Listing>): (ts: seq<Toast>)
    ensures ts == [] <==> Loaded(users) && Loaded(roles)
    ensures ts != [] ==> ts == [Error(StatsFailure)]
  {
    if !Succeeded(users) || !Succeeded(roles) then [Error(StatsFailure)]
    else if users.payload.NotJson? || roles.payload.NotJson? then [Error(StatsFailure)]
    else []
  }

  /** An error toast from `fetchStats` always comes with the statistics left as they were. */
  lemma FailureToastKeepsStats(current: Stats, users: Reply<Listing>, roles: Reply<Listing>)
    requires StatsToasts(users, roles) != []
    ensures NextStats(current, users, roles) == current
  {
  }

  /** The mount effect: only an administrator's dashboard fetches statistics,
      starting from zero counts. */
  function StatsAfterMount(isAdmin: bool, users: Reply<Listing>, roles: Reply<Listing>): (s: Stats)
    ensures s == if isAdmin && Loaded(users) && Loaded(roles)
                 then Stats(Count(users.payload), Count(roles.payload))
                 else Stats(0, 0)
  {
    if isAdmin then NextStats(Stats(0, 0), users, roles) else Stats(0, 0)
  }

  /** What the page renders. */
  datatype View =
    | AdminView(name: string, email: string, roleLabel: string, stats: Stats)
    | UserView(name: string, email: string, roleLabel: string, permissions: PermissionsView)

  /** The admin view is chosen exactly when `isAdmin()`. */
  function Render(isAdmin: bool, user: SessionUser, stats: Stats): (v: View)
    ensures v.AdminView? <==> isAdmin
    ensures v.name == user.name && v.email == user.email
    ensures v.AdminView? ==> v.roleLabel == AdminRoleLabel(user.role) && v.stats == stats
    ensures v.UserView? ==> v.roleLabel == UserRoleLabel(user.role) && v.permissions == Permissions(user.role)
  {
    if isAdmin then AdminView(user.name, user.email, AdminRoleLabel(user.role), stats)
    else UserView(user.name, user.email, UserRoleLabel(user.role), Permissions(user.role))
  }

  /** A bare role string shows permissions as unavailable, whatever the rest of the session holds. */
  lemma StringRoleHidesPermissions(user: SessionUser)
    requires user.role.RoleName?
    ensures Render(false, user, Stats(0, 0)).permissions == NotAvailable
  {
  }
}
