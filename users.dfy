/**
 * The user-management page: the access gate, the cached user and role lists,
 * the fetches that fill them, role assignment and user deletion with its
 * error-message selection.
 */
module Users {
  import opened Js
  import opened Io
  import Session
  import Roles

  /** A user row as `GET /users` returns it: `dbId` is its `_id`, `id` its `id`. */
  datatype User = User(dbId: Option<string>, id: Option<string>, name: string, email: string)

  /** The requests the page sends to the backend. */
  datatype Request =
    | ListUsers
    | ListRoles
    | AssignRole(userId: string, roleId: string)
    | DeleteUser(deletedId: Option<string>)

  /** The body of a failed delete as the error branch reads it: JSON, or a
      body that `response.json()` consumes and then fails to parse. In the
      second case the later `response.text()` call finds the body already
      read and rejects with a TypeError; `readError` is that error's message,
      whose wording depends on the browser. */
  datatype BodyFormat = Json | NotJson(readError: string)

  const UsersDenied := "Access denied. Please contact your administrator."
  const UsersFallback := "Failed to fetch users"
  const RolesDenied := "You do not have permission to view roles"
  const RolesFallback := "Failed to fetch roles"
  const MissingUserMessage := "User ID is missing"
  const AssignFallback := "Failed to update role"
  const NotFoundMessage := "User not found. They may have already been deleted."
  const DeleteFallback := "Failed to delete user"
  const InvalidResponseMessage := "Server returned an invalid response. Please try again later."
  const NetworkMessage := "Network error. Please check your connection and try again."
  /** The message `fetch` rejects with when the request cannot complete. */
  const FetchFailure := "Failed to fetch"
  /** The message Chromium's `response.text()` rejects with once the body has been read. */
  const ChromiumBodyRead := "Failed to execute 'text' on 'Response': body stream already read"

  /** The gate the page checks before fetching: `isAdmin() || hasPermission('manage_users')`. */
  predicate CanManageUsers(auth: Session.Auth): (open: bool)
    ensures auth.isAdmin ==> open
    ensures !auth.isAdmin ==> (open <==> auth.hasPermission("manage_users"))
  {
    auth.isAdmin || auth.hasPermission("manage_users")
  }

  /** The render-time denial check, `!isAdmin() && !hasPermission('manage_users')`. */
  predicate ShowsAccessDenied(auth: Session.Auth): (denied: bool)
    ensures auth.isAdmin ==> !denied
    ensures !auth.isAdmin ==> (denied <==> !auth.hasPermission("manage_users"))
  {
    !auth.isAdmin && !auth.hasPermission("manage_users")
  }

  /** The denial is shown exactly when the fetch gate is closed. */
  lemma DenialIsDualOfGate(auth: Session.Auth)
    ensures ShowsAccessDenied(auth) <==> !CanManageUsers(auth)
  {
  }

  /** What the page renders. */
  datatype Screen = AccessDenied | Loading | Table(users: seq<User>, roles: seq<Roles.Role>)

  function Render(auth: Session.Auth, loading: bool, users: seq<User>, roles: seq<Roles.Role>): (s: Screen)
    ensures s == AccessDenied <==> !CanManageUsers(auth)
    ensures s == Loading <==> CanManageUsers(auth) && loading
    ensures s.Table? ==> s.users == users && s.roles == roles
  {
    if ShowsAccessDenied(auth) then AccessDenied
    else if loading then Loading
    else Table(users, roles)
  }

  function DbIdIsNot(userId: Option<string>): User -> bool {
    (u: User) => u.dbId != userId
  }

  function IdIsNot(userId: Option<string>): User -> bool {
    (u: User) => u.id != userId
  }

  /** The list after a 404 on delete: `users.filter(user => user._id !== userId)`. */
  function AfterNotFound(users: seq<User>, userId: Option<string>): (r: seq<User>)
    ensures forall u :: u in r ==> u.dbId != userId
    ensures forall u: User :: u.dbId != userId ==> multiset(r)[u] == multiset(users)[u]
  {
    Filter(users, DbIdIsNot(userId))
  }

  /** The list after a successful delete: `users.filter(user => user.id !== userId)`,
      which compares the `id` field where the 404 branch compares `_id`. */
  function AfterDeleted(users: seq<User>, userId: Option<string>): (r: seq<User>)
    ensures forall u :: u in r ==> u.id != userId
    ensures forall u: User :: u.id != userId ==> multiset(r)[u] == multiset(users)[u]
  {
    Filter(users, IdIsNot(userId))
  }

  /** Both deletions keep the remaining users in their original order. */
  lemma DeletionsKeepOrder(a: seq<User>, b: seq<User>, userId: Option<string>)
    ensures AfterNotFound(a + b, userId) == AfterNotFound(a, userId) + AfterNotFound(b, userId)
    ensures AfterDeleted(a + b, userId) == AfterDeleted(a, userId) + AfterDeleted(b, userId)
  {
    FilterAppend(a, b, DbIdIsNot(userId));
    FilterAppend(a, b, IdIsNot(userId));
  }

  /** Because rows are deleted by their `_id` but the success branch filters on
      `id`, a successful delete of a row whose `id` is absent removes nothing,
      while a 404 for the same row does remove it. */
  lemma SuccessNeedsIdField(users: seq<User>, userId: Option<string>)
    requires userId.Some?
    requires forall i :: 0 <= i < |users| ==> users[i].id.None?
    ensures AfterDeleted(users, userId) == users
    ensures forall u :: u in users && u.dbId == userId ==> u !in AfterNotFound(users, userId)
  {
    assert forall i :: 0 <= i < |users| ==> IdIsNot(userId)(users[i]);
  }

  /** The message of the error that leaves the inner `try` of a non-ok,
      non-404 delete: the JSON body's `message` or the fallback. When the body
      is not JSON, the `catch` clause's own `response.text()` rejects, so its
      error escapes in place of the invalid-response text. */
  function DeleteFailureMessage(format: BodyFormat, message: string): (m: string)
    ensures format == Json && message != "" ==> m == message
    ensures format == Json && message == "" ==> m == DeleteFallback
    ensures format.NotJson? ==> m == format.readError
  {
    match format
    case Json => Or(message, DeleteFallback)
    case NotJson(readError) => readError
  }

  /** The intended handling of a body that is not JSON: its text is read once
      and then parsed, so a parse failure yields the invalid-response text. */
  function IntendedDeleteFailureMessage(format: BodyFormat, message: string): (m: string)
    ensures m != ""
    ensures format == Json ==> m == DeleteFailureMessage(Json, message)
    ensures format.NotJson? ==> m == InvalidResponseMessage
  {
    match format
    case Json => Or(message, DeleteFallback)
    case NotJson(_) => InvalidResponseMessage
  }

  /** The text of the delete error toast: a rejected `fetch` becomes the
      network advice, any other message is shown as it is, an empty one
      falls back to the generic text. */
  function DeleteErrorText(errorMessage: string): (t: string)
    ensures t != ""
    ensures t == NetworkMessage <==> errorMessage == FetchFailure || errorMessage == NetworkMessage
    ensures errorMessage != FetchFailure && errorMessage != "" ==> t == errorMessage
    ensures errorMessage == "" ==> t == DeleteFallback
  {
    if errorMessage == FetchFailure then NetworkMessage else Or(errorMessage, DeleteFallback)
  }

  /** As written, a body that is not JSON shows the error of the second body
      read, and never the invalid-response text (no browser's TypeError
      message is that text). */
  lemma NotJsonToast(readError: string, message: string)
    requires readError != InvalidResponseMessage
    ensures DeleteErrorText(DeleteFailureMessage(NotJson(readError), message)) == DeleteErrorText(readError)
    ensures DeleteErrorText(DeleteFailureMessage(NotJson(readError), message)) != InvalidResponseMessage
  {
  }

  /** The rejection Chromium gives for the second read of a consumed body is
      what the toast shows. */
  lemma NotJsonShowsReadError()
    ensures DeleteErrorText(DeleteFailureMessage(NotJson(ChromiumBodyRead), "")) == ChromiumBodyRead
  {
  }

  /** With the intended reading, a body that is not JSON always ends in the
      invalid-response toast. */
  lemma IntendedNotJsonToast(readError: string, message: string)
    ensures DeleteErrorText(IntendedDeleteFailureMessage(NotJson(readError), message)) == InvalidResponseMessage
  {
  }

  /** A server `message` equal to the browser's "Failed to fetch" is shown as
      the network advice too, although the request did complete. */
  lemma ServerMessageMistakenForNetwork()
    ensures DeleteErrorText(DeleteFailureMessage(Json, FetchFailure)) == NetworkMessage
  {
  }

  /** The toasts of one list fetch: none on success, the server's message or
      the denial text on a 403, the error's message or the fallback otherwise. */
  function FetchToasts<T>(reply: Reply<T>, denied: string, fallback: string): (ts: seq<Toast>)
    requires denied != "" && fallback != ""
    ensures Succeeded(reply) <==> ts == []
    ensures |ts| <= 1
    ensures forall t :: t in ts ==> t.Error? && t.text != ""
    ensures reply.Answered? && reply.status == 403 ==>
      ts == [Error(if reply.message != "" then reply.message else denied)]
    ensures !Succeeded(reply) && !(reply.Answered? && reply.status == 403) ==>
      ts == [Error(if ErrorText(reply) != "" then ErrorText(reply) else fallback)]
  {
    if Succeeded(reply) then []
    else if reply.Answered? && reply.status == 403 then [Error(Or(reply.message, denied))]
    else [Error(Or(ErrorText(reply), fallback))]
  }

  /** The state of the page component. */
  class UsersPage {
    var users: seq<User>
    var roles: seq<Roles.Role>

    constructor ()
      ensures users == [] && roles == []
    {
      users := [];
      roles := [];
    }

    /** `fetchUsers`: a 403 or any other failure returns early with the list untouched. */
    method FetchUsers(reply: Reply<seq<User>>) returns (sent: seq<Request>, toasts: seq<Toast>)
      modifies this
      ensures sent == [ListUsers]
      ensures users == if Succeeded(reply) then reply.payload else old(users)
      ensures roles == old(roles)
      ensures toasts == FetchToasts(reply, UsersDenied, UsersFallback)
    {
      sent := [ListUsers];
      if reply.Answered? && reply.status == 403 {
        toasts := [Error(Or(reply.message, UsersDenied))];
        return;
      }
      if !Succeeded(reply) {
        toasts := [Error(Or(ErrorText(reply), UsersFallback))];
        return;
      }
      users := reply.payload;
      toasts := [];
    }

    /** `fetchRoles`: the same shape as `fetchUsers`, for the role list. */
    method FetchRoles(reply: Reply<seq<Roles.Role>>) returns (sent: seq<Request>, toasts: seq<Toast>)
      modifies this
      ensures sent == [ListRoles]
      ensures roles == if Succeeded(reply) then reply.payload else old(roles)
      ensures users == old(users)
      ensures toasts == FetchToasts(reply, RolesDenied, RolesFallback)
    {
      sent := [ListRoles];
      if reply.Answered? && reply.status == 403 {
        toasts := [Error(Or(reply.message, RolesDenied))];
        return;
      }
      if !Succeeded(reply) {
        toasts := [Error(Or(ErrorText(reply), RolesFallback))];
        return;
      }
      roles := reply.payload;
      toasts := [];
    }

    /** The mount effect `checkPermissionAndFetch`: both lists are fetched
        only when the gate is open; otherwise nothing is requested. */
    method CheckPermissionAndFetch(auth: Session.Auth, usersReply: Reply<seq<User>>, rolesReply: Reply<seq<Roles.Role>>)
      returns (sent: seq<Request>, toasts: seq<Toast>)
      modifies this
      ensures !CanManageUsers(auth) ==> sent == [] && toasts == [] && users == old(users) && roles == old(roles)
      ensures CanManageUsers(auth) ==>
        sent == [ListUsers, ListRoles]
        && users == (if Succeeded(usersReply) then usersReply.payload else old(users))
        && roles == (if Succeeded(rolesReply) then rolesReply.payload else old(roles))
        && multiset(toasts) == multiset(FetchToasts(usersReply, UsersDenied, UsersFallback)
                                      + FetchToasts(rolesReply, RolesDenied, RolesFallback))
    {
      if CanManageUsers(auth) {
        var sentUsers, toastsUsers := FetchUsers(usersReply);
        var sentRoles, toastsRoles := FetchRoles(rolesReply);
        sent, toasts := sentUsers + sentRoles, toastsUsers + toastsRoles;
      } else {
        sent, toasts := [], [];
      }
    }

    /** `handleRoleChange`: a missing user id is refused before any request;
        the role id is posted as it is, the placeholder '' included. Success
        does not edit the list: it fetches it again. */
    method HandleRoleChange(userId: Option<string>, roleId: string, reply: Reply<()>, refetch: Reply<seq<User>>)
      returns (sent: seq<Request>, toasts: seq<Toast>)
      modifies this
      ensures !Truthy(userId) ==> sent == [] && toasts == [Error(MissingUserMessage)] && users == old(users)
      ensures Truthy(userId) && !Succeeded(reply) ==>
        sent == [AssignRole(userId.value, roleId)] && users == old(users)
        && toasts == [Error(Or(ErrorText(reply), AssignFallback))]
      ensures Truthy(userId) && Succeeded(reply) ==>
        sent == [AssignRole(userId.value, roleId), ListUsers]
        && users == (if Succeeded(refetch) then refetch.payload else old(users))
        && toasts == FetchToasts(refetch, UsersDenied, UsersFallback) + [Success("Role updated successfully")]
      ensures roles == old(roles)
    {
      if !Truthy(userId) {
        sent, toasts := [], [Error(MissingUserMessage)];
        return;
      }
      sent := [AssignRole(userId.value, roleId)];
      if !Succeeded(reply) {
        toasts := [Error(Or(ErrorText(reply), AssignFallback))];
        return;
      }
      var sentFetch, toastsFetch := FetchUsers(refetch);
      sent := sent + sentFetch;
      toasts := toastsFetch + [Success("Role updated successfully")];
    }

    /** `handleDeleteUser`: nothing happens unless the user confirms. A 404
        drops the rows whose `_id` matches, a success drops those whose `id`
        matches, any other outcome leaves the list alone. */
    method HandleDeleteUser(userId: Option<string>, confirmed: bool, reply: Reply<BodyFormat>)
      returns (sent: seq<Request>, toasts: seq<Toast>)
      modifies this
      ensures !confirmed ==> sent == [] && toasts == [] && users == old(users)
      ensures confirmed ==> sent == [DeleteUser(userId)]
      ensures confirmed && reply.NetworkError? ==>
        users == old(users) && toasts == [Error(DeleteErrorText(reply.reason))]
      ensures confirmed && reply.Answered? && reply.status == 404 ==>
        users == AfterNotFound(old(users), userId) && toasts == [Error(NotFoundMessage)]
      ensures confirmed && reply.Answered? && reply.status != 404 && !Succeeded(reply) ==>
        users == old(users)
        && toasts == [Error(DeleteErrorText(DeleteFailureMessage(reply.payload, reply.message)))]
      ensures confirmed && Succeeded(reply) ==>
        users == AfterDeleted(old(users), userId) && toasts == [Success("User deleted successfully")]
      ensures roles == old(roles)
    {
      if !confirmed {
        sent, toasts := [], [];
        return;
      }
      sent := [DeleteUser(userId)];
      match reply
      case NetworkError(reason) =>
        toasts := [Error(DeleteErrorText(reason))];
      case Answered(status, format, message) =>
        if status == 404 {
          users := AfterNotFound(users, userId);
          toasts := [Error(NotFoundMessage)];
        } else if !Succeeded(reply) {
          toasts := [Error(DeleteErrorText(DeleteFailureMessage(format, message)))];
        } else {
          users := AfterDeleted(users, userId);
          toasts := [Success("User deleted successfully")];
        }
    }
  }
}
