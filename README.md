# RBAC admin console: page logic in Dafny

This project models the decision and bookkeeping logic of a browser console
for a role-based access control service. It covers five React components:

- the role-management page: admin-only gate, permission checkboxes, and the role-list cache;
- the user-management page: access gate, list fetches with their 403 early return, role assignment, and deletion with its error messages;
- the profile form: field edits, password validation, update payload, and clearing after success;
- the dashboard: role label, permission chips, statistics, and admin/user view choice;
- the layout: navigation links, header label, and logout order.

Each page's component state (`roles`, `newRole` and `editingRole`; `users`
and `roles`; `formData`) is a Dafny `class`. Each event handler is a method
of that class. A method takes the backend's reply as an input and returns
two things: `sent`, the requests it issued, and `toasts`, the notifications
it raised. So "no request before validation passes" is a postcondition
about `sent`. Derived values are pure functions: the list transforms inside
handlers, gates, labels, payloads and statistics. Lemmas about those
functions state the properties.

Modules:

- `Js` models the JavaScript built-ins involved: truthiness of an optional id, `||` on strings, `filter`, `map`, `indexOf`, `replace` with a string pattern, and `toUpperCase`.
- `Io` holds backend replies (network failure, or status + body + `message`; "ok" means a 2xx status) and toasts.
- `Session` holds the session user as the pages read it, and the capability queries `isAdmin()` and `hasPermission(p)`. These are inputs without a definition: the authentication context is not part of this model.
- `Roles`, `Users`, `Profile`, `Dashboard` and `Layout` follow the source files one to one.

Points of the code that the model keeps as they are:

- `handleRoleChange` checks only that a user id is present, and posts whatever role id it is given, including the placeholder `''`.
- The Roles link shows for `manage_roles` holders, but the Roles page admits only administrators (`Layout.RolesLinkLeadsToDenial`).
- User deletion filters the cache on `_id` after a 404 but on `id` after a success. The model keeps this unchanged. `Users.SuccessNeedsIdField` shows that a successful delete removes nothing from a list whose rows have no `id`.
- A bare-string session role is shown as itself on the user dashboard. It is shown as 'Admin' on the admin dashboard, and as 'unknown' in the header.

## Model

| member | source | states |
|---|---|---|
| `Js.Filter` | src/pages/Roles.jsx:132 | `filter` keeps exactly the accepted elements, each with its original multiplicity; if all are accepted the list is unchanged |
| `Js.FilterAppend` | src/pages/Roles.jsx:122 | filtering distributes over concatenation, so the survivors keep their relative order |
| `Js.ReplaceWhere` | src/pages/Roles.jsx:95-97 | the conditional `map` preserves length and replaces exactly the selected positions, keeping the rest |
| `Js.IndexOf` | src/pages/Roles.jsx:180 | the result is -1 iff the character is absent; otherwise it is the position of its first occurrence |
| `Js.ReplaceFirst` | src/pages/Roles.jsx:180 | `replace` with a one-character pattern splices the replacement in at `indexOf` and leaves everything else, later occurrences included |
| `Js.ToUpperCase` | src/pages/Roles.jsx:180 | upper-casing preserves length and maps each character independently |
| `Session.PermissionLabel` | src/pages/Dashboard.jsx:133-135 | the label has the token's length; the first `_` becomes a space and every other position is the upper-cased character |
| `Session.TwoUnderscores` | src/pages/Roles.jsx:180 | only the first underscore is replaced: `a_b_c` is shown as `A B_C` |
| `Session.SameLabelBothForms` | src/pages/Dashboard.jsx:133 | a bare token and a `{name}` object with the same token give the same label |
| `Roles.Toggle` | src/pages/Roles.jsx:131-133 | the toggled permission's membership flips; an absent one is appended at the end; a present one is removed in every occurrence; every other permission keeps its multiplicity |
| `Roles.ToggleTwiceRestores` | src/pages/Roles.jsx:131-133 | toggling an absent permission twice gives back exactly the original list |
| `Roles.ToggleTwiceSameSet` | src/pages/Roles.jsx:136-138 | toggling any permission twice leaves the set of permissions unchanged |
| `Roles.TogglePresentTwiceReorders` | src/pages/Roles.jsx:131-133 | toggling a present permission twice removes all its occurrences and appends it once at the end, so the list comes back only when it occurred once, in last place |
| `Roles.ReplaceRole` | src/pages/Roles.jsx:95-97 | after an update, exactly the roles whose `_id` equals the edited one are replaced by the server's role; length and all other entries keep their place |
| `Roles.RemoveRole` | src/pages/Roles.jsx:122 | after a delete, no role with the id remains; every other role keeps its multiplicity; a list without that id is unchanged |
| `Roles.RemoveRoleKeepsOrder` | src/pages/Roles.jsx:122 | deletion keeps the remaining roles in their original order |
| `Roles.Render` | src/pages/Roles.jsx:143-151 | a non-admin gets the permission-denied view whatever the loading flag and list state; an admin sees loading or the management view of the current state |
| `Roles.PermissionCaptions` | src/pages/Roles.jsx:172-180 | one caption per available permission, in order, each its formatted label |
| `Roles.RolesPage.constructor` | src/pages/Roles.jsx:9-12 | the page starts with no roles, an empty draft and nothing being edited |
| `Roles.RolesPage.FetchRoles` | src/pages/Roles.jsx:26-41 | one GET; the list is replaced only by a successful reply; a failure shows its message and changes nothing |
| `Roles.RolesPage.HandleCreateRole` | src/pages/Roles.jsx:43-63 | POSTs the draft; on success the server's role is appended and the draft reset to empty; on failure list and draft are unchanged |
| `Roles.RolesPage.HandleUpdateRole` | src/pages/Roles.jsx:65-104 | a missing or empty `_id` fails with "Role ID is missing" before any request. Otherwise one PUT is sent with the edited name and permissions. On success the cache uses `ReplaceRole` and editing closes. On failure nothing changes and the fallback message applies |
| `Roles.RolesPage.HandleDeleteRole` | src/pages/Roles.jsx:106-127 | without confirmation nothing is sent or changed; a successful DELETE applies `RemoveRole`; a failure leaves `roles` unchanged |
| `Roles.RolesPage.HandlePermissionToggle` | src/pages/Roles.jsx:129-141 | only the permissions of the selected draft change, by `Toggle`; its name, the other draft and the list are untouched |
| `Roles.RolesPage.EditNewRoleName` | src/pages/Roles.jsx:164 | only the new draft's name changes |
| `Roles.RolesPage.EditEditingName` | src/pages/Roles.jsx:251 | only the edited role's name changes |
| `Roles.RolesPage.StartEditing` | src/pages/Roles.jsx:222 | the clicked role becomes the one being edited; nothing else changes |
| `Roles.RolesPage.CancelEditing` | src/pages/Roles.jsx:275 | editing closes; nothing else changes |
| `Users.CanManageUsers` | src/pages/Users.jsx:21 | an administrator always passes the fetch gate; anyone else passes exactly with `manage_users` |
| `Users.ShowsAccessDenied` | src/pages/Users.jsx:189 | an administrator is never shown the denial; anyone else is shown it exactly without `manage_users` |
| `Users.DenialIsDualOfGate` | src/pages/Users.jsx:189 | the render-time denial holds exactly when the fetch gate `isAdmin() or hasPermission('manage_users')` of line 21 is false |
| `Users.Render` | src/pages/Users.jsx:189-212 | access denied iff the gate is closed; otherwise loading or the table of the current lists |
| `Users.AfterNotFound` | src/pages/Users.jsx:160 | after a 404 no user with that `_id` remains; every other user keeps its multiplicity |
| `Users.AfterDeleted` | src/pages/Users.jsx:178 | after a successful delete no user with that `id` remains; every other user keeps its multiplicity |
| `Users.DeletionsKeepOrder` | src/pages/Users.jsx:157-178 | both deletion filters keep the remaining users in order |
| `Users.SuccessNeedsIdField` | src/pages/Users.jsx:160-178 | when rows have no `id`, a successful delete leaves the list unchanged, while a 404 removes the row by `_id` |
| `Users.DeleteFailureMessage` | src/pages/Users.jsx:164-175 | a JSON body gives its `message`, or 'Failed to delete user' when it has none; a non-JSON body gives the error of the rejected second read `response.text()` |
| `Users.IntendedDeleteFailureMessage` | src/pages/Users.jsx:164-175 | with the body read once, a non-JSON body gives the invalid-response text and a JSON body is handled as written |
| `Users.DeleteErrorText` | src/pages/Users.jsx:182-184 | the toast is never empty. It is the network advice exactly when the message is 'Failed to fetch' (or already that advice). Any other non-empty message is shown as is; an empty one gives 'Failed to delete user' |
| `Users.NotJsonToast` | src/pages/Users.jsx:164-185 | as written, a non-JSON error body shows the read error's toast and never the invalid-response text |
| `Users.NotJsonShowsReadError` | src/pages/Users.jsx:166-185 | with Chromium's rejection for a consumed body, that rejection text is the toast |
| `Users.IntendedNotJsonToast` | src/pages/Users.jsx:169-173 | with the body read once, a non-JSON error body always ends in the invalid-response toast |
| `Users.ServerMessageMistakenForNetwork` | src/pages/Users.jsx:182-184 | a server message 'Failed to fetch' is also shown as the network advice |
| `Users.FetchToasts` | src/pages/Users.jsx:50-67 | a fetch raises no toast exactly when it succeeds. A 403 raises the server's `message`, or the denial text when it has none. Any other failure raises the error's message, or the fallback when it is empty |
| `Users.UsersPage.constructor` | src/pages/Users.jsx:9-10 | both lists start empty |
| `Users.UsersPage.FetchUsers` | src/pages/Users.jsx:36-69 | one GET; a 403 or any other failure returns early with both lists untouched; success replaces `users` |
| `Users.UsersPage.FetchRoles` | src/pages/Users.jsx:71-100 | one GET; a 403 or any other failure leaves both lists untouched; success replaces `roles` |
| `Users.UsersPage.CheckPermissionAndFetch` | src/pages/Users.jsx:13-34 | users and roles are requested only when the gate is open, and the toasts are those of the two fetches, in either order; otherwise nothing is sent and nothing changes |
| `Users.UsersPage.HandleRoleChange` | src/pages/Users.jsx:102-135 | a missing user id fails before any request. The role id is posted unvalidated. Success does not edit the list locally: it re-fetches users. `roles` never changes |
| `Users.UsersPage.HandleDeleteUser` | src/pages/Users.jsx:137-187 | without confirmation nothing happens. A 404 filters on `_id`; a success filters on `id`. Every other outcome leaves the list and shows `DeleteErrorText` of the message as written (`DeleteFailureMessage`) |
| `Profile.SetField` | src/pages/Profile.jsx:16-22 | the named field takes the value and every other field keeps its own |
| `Profile.PasswordError` | src/pages/Profile.jsx:28-37 | validation passes iff no new password is typed, or it matches the confirmation and a current password is given. A failure is the mismatch message when they differ, else the current-password message |
| `Profile.MismatchTakesPrecedence` | src/pages/Profile.jsx:28-36 | a mismatch is reported even when the current password is also empty |
| `Profile.UpdateData` | src/pages/Profile.jsx:41-48 | the payload always has `name` and `email` and never `confirmPassword`; it has `currentPassword` and `newPassword` exactly when a new password is typed |
| `Profile.Cleared` | src/pages/Profile.jsx:53-58 | after success the three password fields are empty and name and email are kept |
| `Profile.ClearedSubmitsNoPassword` | src/pages/Profile.jsx:41-58 | a cleared form validates and sends only name and email |
| `Profile.ProfilePage.constructor` | src/pages/Profile.jsx:8-14 | the form starts from the session user's name and e-mail with empty passwords |
| `Profile.ProfilePage.HandleChange` | src/pages/Profile.jsx:16-22 | the form becomes `SetField` of the old form |
| `Profile.ProfilePage.HandleSubmit` | src/pages/Profile.jsx:24-64 | a failed validation makes no update call and keeps the form. Otherwise the payload is sent. A resolved update clears the passwords; a rejected one keeps the form unchanged |
| `Dashboard.UserRoleLabel` | src/pages/Dashboard.jsx:117 | a string role shows itself and an object role its name; only an absent role or nameless object shows 'No role assigned' (or a role literally named so) |
| `Dashboard.AdminRoleLabel` | src/pages/Dashboard.jsx:98 | a role object with a name shows that name; the label is 'Admin' exactly when there is no role object, it has no name, or its name is 'Admin' |
| `Dashboard.ChipLabels` | src/pages/Dashboard.jsx:128-135 | one chip per array element, each the formatted label of its token |
| `Dashboard.Permissions` | src/pages/Dashboard.jsx:124-141 | a string role gives 'not available' whatever else is present. An absent role or falsy `permissions` gives 'none assigned'. A truthy non-array gives no chips. An array gives one label per element |
| `Dashboard.BothFormsSameChips` | src/pages/Dashboard.jsx:133 | lists that agree token by token, in whichever representation, give identical chips |
| `Dashboard.Count` | src/pages/Dashboard.jsx:45-46 | an array counts its length, any other value 0 |
| `Dashboard.StatsToasts` | src/pages/Dashboard.jsx:37-51 | `fetchStats` raises one 'Failed to fetch statistics' error exactly when either list is not ok or its body does not parse, and nothing otherwise |
| `Dashboard.FailureToastKeepsStats` | src/pages/Dashboard.jsx:37-51 | whenever that error is raised the statistics stay as they were |
| `Dashboard.NextStats` | src/pages/Dashboard.jsx:37-50 | if either response is not ok or its body does not parse, the stats are unchanged; otherwise each count is the array length, 0 for a non-array |
| `Dashboard.StatsAfterMount` | src/pages/Dashboard.jsx:15-19 | statistics are fetched only for an administrator: the counts are non-zero only when admin and both replies are ok and parse |
| `Dashboard.Render` | src/pages/Dashboard.jsx:54-146 | the admin view is rendered iff `isAdmin()`, with the admin role label and the stats; otherwise the user view with its role label and permissions |
| `Dashboard.StringRoleHidesPermissions` | src/pages/Dashboard.jsx:124-125 | a string role always yields "Permissions information not available" in the user view |
| `Layout.NavLinks` | src/components/Layout.jsx:25-52 | Dashboard comes first and Profile last, always, with Users before Roles when both show. Users shows iff `isAdmin() or hasPermission('manage_users')`. Roles shows iff `isAdmin() or hasPermission('manage_roles')` |
| `Layout.HeaderRole` | src/components/Layout.jsx:59 | the header shows the role object's name, or 'unknown' when the user, the role object or its name is missing |
| `Layout.Header` | src/components/Layout.jsx:59 | the header text starts with the user's name (nothing for an absent user) and ends with the role label in parentheses |
| `Layout.StringRoleHeader` | src/components/Layout.jsx:59 | a bare-string role is labelled 'unknown' in the header |
| `Layout.HandleLogout` | src/components/Layout.jsx:10-13 | logout runs first, then navigation to `/login`, and nothing else |
| `Layout.UsersLinkMatchesGate` | src/components/Layout.jsx:31 | the Users link is shown exactly when the Users page's gate (src/pages/Users.jsx:21) is open, and hidden exactly when that page shows its denial |
| `Layout.RolesLinkLeadsToDenial` | src/components/Layout.jsx:39 | a non-admin with `manage_roles` sees the Roles link, yet the Roles page (src/pages/Roles.jsx:143) denies them |

## Findings

| source | as written | input that shows it | evidently intended | confidence | as-written member | corrected member |
|---|---|---|---|---|---|---|
| src/pages/Users.jsx:166-173 | the `catch` clause for a non-JSON error body calls `response.text()` on the body that `response.json()` already consumed; that call rejects, so its TypeError message is shown and the invalid-response text is never set | a DELETE answered 500 with an HTML body, in Chromium: the toast reads "Failed to execute 'text' on 'Response': body stream already read" | read the body once as text and then parse it, so that a parse failure shows "Server returned an invalid response. Please try again later." | high: follows from the Fetch standard's rule that a body can be read only once; not executed | `Users.NotJsonToast`, `Users.NotJsonShowsReadError` | `Users.IntendedDeleteFailureMessage`, `Users.IntendedNotJsonToast` |

`Users.UsersPage.HandleDeleteUser` keeps the code's behaviour (`DeleteFailureMessage`). The corrected message function is stated beside it.

## Left out

- Transport: `fetch` itself, headers, bearer tokens and `API_URL` are not modelled. Each reply is an input value. A reply given for a request the handler does not send is ignored.
- JSON decoding: a body that is not JSON where the code calls `response.json()` throws a parse error. This is modelled for the error body of user deletion and for the two list bodies the dashboard's statistics read. Elsewhere a reply's body is assumed to have the shape the handler reads (`data.role` on create and update, an array from the list endpoints). The model cannot express a missing `data.role` or a list that is not an array, so what the code would store then, and the render failures that follow, are not modelled.
- Toasts: their display, `console` logging and JSX markup are left out. Only the text of each toast is kept, in order.
- `window.confirm` is a boolean input.
- Handlers are modelled as atomic: each runs to completion before the next starts. In the code a handler writes back the `roles` or `users` it captured at render time after an `await` (the append on role creation, both filters on user deletion), so an update that lands during that `await` is overwritten. This interleaving, and the stale copies it acts on, are not modelled.
- `useEffect` scheduling, the `loading` flags and `Promise.all` are not modelled. Joined fetches run one after the other. The loading flag is a parameter of the render functions.
- `isAdmin`, `hasPermission`, `logout` and `updateUserProfile` are inputs or named effects: the authentication context is not part of this model.
- Js.ToUpperCase: upper-cases ASCII letters only. JavaScript's full Unicode case mapping, which can change a string's length, is not modelled.
- A permission object without a string `name` makes the dashboard throw. Session roles or permission entries of other JavaScript types (numbers, booleans) are not modelled.
- Dashboard and Profile read `user.name` directly. The session user is assumed present there; the header handles an absent user.
- Users.UsersPage.HandleRoleChange: the JSON decoding of a successful assignment reply is not modelled, so a success body that fails to parse is not a failure here.
- The wording of the TypeError raised by reading a consumed body depends on the browser. It is an input (`Users.BodyFormat.NotJson`), and only Chromium's wording is given as a constant.
- Rendering of the role and user tables, beyond which lists the screen shows, is presentation and is left out.
