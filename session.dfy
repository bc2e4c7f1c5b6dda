/**
 * The authenticated user as the pages read it from the authentication
 * context. The capability queries `isAdmin()` and `hasPermission(p)` are
 * defined in a module that is not part of this model, so they are inputs
 * here, without a definition.
 */
module Session {
  import opened Js

  /** The capability queries of the authentication context. */
  datatype Auth = Auth(isAdmin: bool, hasPermission: string -> bool)

  /** One element of a role's `permissions` array: a bare token, or an object carrying it as `name`. */
  datatype PermissionEntry = Token(token: string) | Named(name: string)

  /** A role's `permissions` property: absent or falsy, present but not an array, or an array. */
  datatype PermissionsField = Falsy | NotAnArray | Entries(items: seq<PermissionEntry>)

  /** The session user's `role`: absent, a bare role-name string, or a role object
      (`name` is "" when the object has none). */
  datatype SessionRole =
    | NoRole
    | RoleName(roleName: string)
    | RoleRecord(name: string, permissions: PermissionsField)

  datatype SessionUser = SessionUser(name: string, email: string, role: SessionRole)

  /** `(typeof p === 'string' ? p : p.name)`: the token a permission entry stands for. */
  function EntryToken(e: PermissionEntry): string {
    match e
    case Token(t) => t
    case Named(n) => n
  }

  /** The display label of a permission token, `p.replace('_', ' ').toUpperCase()`:
      the first underscore, and only that one, becomes a space, and letters are
      upper-cased. */
  function PermissionLabel(p: string): (shown: string)
    ensures |shown| == |p|
    ensures forall i :: 0 <= i < |p| ==>
      shown[i] == if i == IndexOf(p, '_') then ' ' else UpperChar(p[i])
  {
    var spaced := ReplaceFirst(p, '_', ' ');
    var i := IndexOf(p, '_');
    assert forall k :: 0 <= k < |p| ==> spaced[k] == if k == i then ' ' else p[k];
    ToUpperCase(spaced)
  }

  /** Only the first underscore is replaced: a token with two keeps its second one. */
  lemma TwoUnderscores()
    ensures PermissionLabel("a_b_c") == "A B_C"
  {
    SpacedExample();
    UpperExample();
  }

  lemma SpacedExample()
    ensures ReplaceFirst("a_b_c", '_', ' ') == "a b_c"
  {
    var p := "a_b_c";
    assert p[1..] == ['_'] + p[2..];
    assert ReplaceFirst(p[1..], '_', ' ') == [' '] + p[2..];
  }

  lemma UpperExample()
    ensures ToUpperCase("a b_c") == "A B_C"
  {
    var upper := ToUpperCase("a b_c");
    assert UpperChar('a') == 'A' && UpperChar(' ') == ' ' && UpperChar('b') == 'B';
    assert UpperChar('_') == '_' && UpperChar('c') == 'C';
    assert upper == ['A', ' ', 'B', '_', 'C'];
  }

  /** The bare token and the `{name}` object give the same label. */
  lemma SameLabelBothForms(t: string)
    ensures PermissionLabel(EntryToken(Token(t))) == PermissionLabel(EntryToken(Named(t)))
  {
  }
}
