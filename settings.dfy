/** The settings page: the field rules of the profile and password forms,
    the payload the password form submits, and the avatar initials (shared
    with the chat page, see `Text.Initials`). A form's rules give the list of
    field errors in field order; the form submits only when that list is
    empty. A failed length rule does not stop the cross-field check of the
    password form, so a mismatch is reported alongside short fields. */
module Settings {
  import opened Wrappers
  import opened Text

  /** One validation message and the field it is shown under. */
  datatype FieldError = FieldError(path: string, message: string)

  datatype PasswordForm = PasswordForm(currentPassword: string, newPassword: string, confirmPassword: string)

  /** What the password form sends: there is no slot for the confirmation. */
  datatype PasswordChange = PasswordChange(currentPassword: string, newPassword: string)

  datatype ProfileForm = ProfileForm(fullName: string, phoneNumber: Option<string>, email: string, username: string)

  const Mismatch := FieldError("confirmPassword", "Passwords don't match")

  /** A `min(n)` rule: an error for a value shorter than `n`. */
  function MinLength(path: string, value: string, n: nat, message: string): (r: seq<FieldError>)
    ensures r == [] <==> |value| >= n
    ensures r != [] ==> r == [FieldError(path, message)]
  {
    if |value| < n then [FieldError(path, message)] else []
  }

  /** `passwordSchema`: every field at least 6 characters long, and the new
      password repeated exactly. */
  function PasswordErrors(f: PasswordForm): (r: seq<FieldError>)
    ensures r == [] <==>
      |f.currentPassword| >= 6 && |f.newPassword| >= 6 && |f.confirmPassword| >= 6 &&
      f.newPassword == f.confirmPassword
    ensures Mismatch in r <==> f.newPassword != f.confirmPassword
    ensures forall e :: e in r ==> e.path in {"currentPassword", "newPassword", "confirmPassword"}
  {
    MinLength("currentPassword", f.currentPassword, 6, "Current password is required.") +
    MinLength("newPassword", f.newPassword, 6, "Password must be at least 6 characters.") +
    MinLength("confirmPassword", f.confirmPassword, 6, "Please confirm your password.") +
    (if f.newPassword != f.confirmPassword then [Mismatch] else [])
  }

  /** `onPasswordSubmit`, reached only through a form that passed its rules:
      the current and the new password, which then equals the confirmation
      and is at least 6 characters long. */
  function SubmitPassword(f: PasswordForm): (r: Option<PasswordChange>)
    ensures r.Some? <==> PasswordErrors(f) == []
    ensures r.Some? ==>
      r.value.currentPassword == f.currentPassword && r.value.newPassword == f.newPassword &&
      r.value.newPassword == f.confirmPassword && |r.value.newPassword| >= 6
  {
    if PasswordErrors(f) == [] then Some(PasswordChange(f.currentPassword, f.newPassword)) else None
  }

  /** `profileSchema`: a name of at least 2 characters, an address the e-mail
      rule `isEmail` accepts and a username of at least 3 characters; the
      phone number is optional and never rejected. */
  function ProfileErrors(f: ProfileForm, isEmail: string -> bool): (r: seq<FieldError>)
    ensures r == [] <==> |f.fullName| >= 2 && isEmail(f.email) && |f.username| >= 3
    ensures forall e :: e in r ==> e.path != "phoneNumber"
    ensures FieldError("fullName", "Name must be at least 2 characters.") in r <==> |f.fullName| < 2
    ensures FieldError("username", "Username must be at least 3 characters.") in r <==> |f.username| < 3
    ensures FieldError("email", "Please enter a valid email address.") in r <==> !isEmail(f.email)
  {
    MinLength("fullName", f.fullName, 2, "Name must be at least 2 characters.") +
    (if isEmail(f.email) then [] else [FieldError("email", "Please enter a valid email address.")]) +
    MinLength("username", f.username, 3, "Username must be at least 3 characters.")
  }

  /** `onProfileSubmit`: the whole form, once it passed its rules. */
  function SubmitProfile(f: ProfileForm, isEmail: string -> bool): (r: Option<ProfileForm>)
    ensures r.Some? <==> ProfileErrors(f, isEmail) == []
    ensures r.Some? ==> r.value == f
  {
    if ProfileErrors(f, isEmail) == [] then Some(f) else None
  }
}
