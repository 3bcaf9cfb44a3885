/**
 * The profile page: filling the form from the signed-in user, the profile
 * and password requests it sends, and the checks before a password change.
 */
module ProfilePage {
  import opened Wrappers

  datatype ProfileForm = ProfileForm(
    name: string, email: string, currentPassword: string, newPassword: string, confirmPassword: string)

  /** The signed-in user as the page reads it. */
  datatype AuthUser = AuthUser(name: Option<string>, email: Option<string>)

  /** `UserUpdate`: every field may be left out of the request. */
  datatype UserUpdate = UserUpdate(name: Option<string>, email: Option<string>, password: Option<string>)

  const EmptyForm := ProfileForm("", "", "", "", "")

  /** The effect on `user`: name and e-mail come from the user (`""` when unset); the password fields stay. */
  function Sync(f: ProfileForm, user: Option<AuthUser>): (r: ProfileForm)
    ensures user.None? ==> r == f
    ensures user.Some? ==> r.name == user.value.name.GetOr("") && r.email == user.value.email.GetOr("")
    ensures r.currentPassword == f.currentPassword && r.newPassword == f.newPassword &&
      r.confirmPassword == f.confirmPassword
  {
    match user
    case None => f
    case Some(u) => f.(name := u.name.GetOr(""), email := u.email.GetOr(""))
  }

  /** `handleProfileUpdate`: exactly name and e-mail are sent. */
  function ProfileRequest(f: ProfileForm): (r: UserUpdate)
    ensures r.name == Some(f.name) && r.email == Some(f.email) && r.password.None?
  {
    UserUpdate(Some(f.name), Some(f.email), None)
  }

  /** What a password change does before any request: refuse with a message, or send. */
  datatype PasswordStep = Refuse(message: string) | Send(update: UserUpdate)

  /** `handlePasswordUpdate`: mismatching passwords are refused first, then ones shorter than 6 characters. */
  function PasswordRequest(f: ProfileForm): (r: PasswordStep)
    ensures f.newPassword != f.confirmPassword ==> r == Refuse("New passwords do not match")
    ensures f.newPassword == f.confirmPassword && |f.newPassword| < 6 ==>
      r == Refuse("Password must be at least 6 characters long")
    ensures r.Send? <==> f.newPassword == f.confirmPassword && |f.newPassword| >= 6
    ensures r.Send? ==> r.update == UserUpdate(None, None, Some(f.newPassword))
  {
    if f.newPassword != f.confirmPassword then Refuse("New passwords do not match")
    else if |f.newPassword| < 6 then Refuse("Password must be at least 6 characters long")
    else Send(UserUpdate(None, None, Some(f.newPassword)))
  }

  /** The current-password field plays no part: the request is the same whatever it holds. */
  lemma CurrentPasswordNotSent(f: ProfileForm, other: string)
    ensures PasswordRequest(f.(currentPassword := other)) == PasswordRequest(f)
  {
  }

  /** A short password typed differently twice is reported as a mismatch, not as too short. */
  lemma MismatchReportedFirst(f: ProfileForm)
    requires |f.newPassword| < 6 && f.newPassword != f.confirmPassword
    ensures PasswordRequest(f) == Refuse("New passwords do not match")
  {
  }

  /** The form after a password change succeeds: the three password fields cleared, name and e-mail kept. */
  function AfterPasswordSaved(f: ProfileForm): (r: ProfileForm)
    ensures r.name == f.name && r.email == f.email
    ensures r.currentPassword == "" && r.newPassword == "" && r.confirmPassword == ""
  {
    f.(currentPassword := "", newPassword := "", confirmPassword := "")
  }

  /** The cleared form cannot send the same change again: its empty password is refused. */
  lemma ClearedFormRefused(f: ProfileForm)
    ensures PasswordRequest(AfterPasswordSaved(f)).Refuse?
  {
  }
}
