/**
 * The profile form: field-by-field edits, the password-change validation,
 * the update payload and the clearing of the password fields after a
 * successful update. The update itself (`updateUserProfile`) belongs to the
 * authentication context; its outcome is an input.
 */
module Profile {
  import opened Js
  import opened Io
  import Session

  datatype FormData = FormData(
    name: string, email: string,
    currentPassword: string, newPassword: string, confirmPassword: string)

  /** The form inputs, by their `name` attribute. */
  datatype Field = Name | Email | CurrentPassword | NewPassword | ConfirmPassword

  /** How the profile update settled: resolved, or rejected with an error message. */
  datatype UpdateOutcome = Resolved | Rejected(message: string)

  const MismatchMessage := "New passwords do not match"
  const CurrentRequiredMessage := "Current password is required to set a new password"

  function Get(f: FormData, k: Field): string {
    match k
    case Name => f.name
    case Email => f.email
    case CurrentPassword => f.currentPassword
    case NewPassword => f.newPassword
    case ConfirmPassword => f.confirmPassword
  }

  /** `{ ...prev, [name]: value }`: the named field takes the value, every other keeps its own. */
  function SetField(f: FormData, k: Field, v: string): (r: FormData)
    ensures Get(r, k) == v
    ensures forall k' :: k' != k ==> Get(r, k') == Get(f, k')
  {
    match k
    case Name => f.(name := v)
    case Email => f.(email := v)
    case CurrentPassword => f.(currentPassword := v)
    case NewPassword => f.(newPassword := v)
    case ConfirmPassword => f.(confirmPassword := v)
  }

  /** The validation `handleSubmit` runs before calling the update. Passwords
      are only checked when a new one is typed; a mismatch is reported before
      a missing current password. */
  function PasswordError(f: FormData): (e: Option<string>)
    ensures e == None <==> f.newPassword == "" || (f.newPassword == f.confirmPassword && f.currentPassword != "")
    ensures e.Some? ==> e.value == (if f.newPassword != f.confirmPassword then MismatchMessage else CurrentRequiredMessage)
  {
    if f.newPassword != "" then
      if f.newPassword != f.confirmPassword then Some(MismatchMessage)
      else if f.currentPassword == "" then Some(CurrentRequiredMessage)
      else None
    else None
  }

  /** A mismatch wins even when the current password is also missing. */
  lemma MismatchTakesPrecedence(f: FormData)
    requires f.newPassword != "" && f.newPassword != f.confirmPassword && f.currentPassword == ""
    ensures PasswordError(f) == Some(MismatchMessage)
  {
  }

  /** The object passed to the update: `name` and `email`, plus `currentPassword`
      and `newPassword` exactly when a new password is typed; never the confirmation. */
  function UpdateData(f: FormData): (m: map<string, string>)
    ensures "confirmPassword" !in m
    ensures "name" in m && m["name"] == f.name && "email" in m && m["email"] == f.email
    ensures f.newPassword == "" ==> m.Keys == {"name", "email"}
    ensures f.newPassword != "" ==>
      m.Keys == {"name", "email", "currentPassword", "newPassword"}
      && m["currentPassword"] == f.currentPassword && m["newPassword"] == f.newPassword
  {
    map["name" := f.name, "email" := f.email]
      + (if f.newPassword != "" then
           map["currentPassword" := f.currentPassword, "newPassword" := f.newPassword]
         else map[])
  }

  /** The form after a successful update: the three password fields emptied. */
  function Cleared(f: FormData): (r: FormData)
    ensures r.currentPassword == "" && r.newPassword == "" && r.confirmPassword == ""
    ensures r.name == f.name && r.email == f.email
  {
    f.(currentPassword := "", newPassword := "", confirmPassword := "")
  }

  /** Submitting a cleared form can never send a password change. */
  lemma ClearedSubmitsNoPassword(f: FormData)
    ensures PasswordError(Cleared(f)) == None
    ensures UpdateData(Cleared(f)).Keys == {"name", "email"}
  {
  }

  /** The state of the page component. */
  class ProfilePage {
    var formData: FormData

    /** The form starts from the session user's name and e-mail, with empty passwords. */
    constructor (user: Session.SessionUser)
      ensures formData == FormData(user.name, user.email, "", "", "")
    {
      formData := FormData(user.name, user.email, "", "", "");
    }

    /** `handleChange` for the input named `k`. */
    method HandleChange(k: Field, value: string)
      modifies this
      ensures formData == SetField(old(formData), k, value)
    {
      formData := SetField(formData, k, value);
    }

    /** `handleSubmit`: an invalid password change is refused before any call;
        otherwise the payload is sent, and only a resolved update clears the
        password fields. */
    method HandleSubmit(outcome: UpdateOutcome) returns (sent: Option<map<string, string>>, toasts: seq<Toast>)
      modifies this
      ensures PasswordError(old(formData)).Some? ==>
        sent == None && toasts == [Error(PasswordError(old(formData)).value)] && formData == old(formData)
      ensures PasswordError(old(formData)).None? ==>
        sent == Some(UpdateData(old(formData)))
        && (outcome.Resolved? ==>
              formData == Cleared(old(formData)) && toasts == [Success("Profile updated successfully")])
        && (outcome.Rejected? ==>
              formData == old(formData) && toasts == [Error(outcome.message)])
    {
      var error := PasswordError(formData);
      if error.Some? {
        sent, toasts := None, [Error(error.value)];
        return;
      }
      sent := Some(UpdateData(formData));
      match outcome
      case Resolved =>
        formData := Cleared(formData);
        toasts := [Success("Profile updated successfully")];
      case Rejected(message) =>
        toasts := [Error(message)];
    }
  }
}
