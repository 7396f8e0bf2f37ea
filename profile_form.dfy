/**
 * The profile form (frontend/src/pages/Profile.js): the validation rules on its five fields,
 * the payload it submits and the values it keeps after a successful submit.
 *
 * Formik hands the rules an empty field as undefined, so an empty text counts as absent
 * everywhere below. When several rules of one field fail, the field shows the first
 * declared one. The e-mail format rule of the validation library is a parameter.
 */
module ProfileForm {
  import opened Wrappers
  import UserProfile

  const MinPasswordLength: nat := 6

  datatype FormValues = FormValues(
    name: string,
    email: string,
    currentPassword: string,
    newPassword: string,
    confirmPassword: string)

  /** What a rule sees of a field: '' is undefined. */
  function Prepared(s: string): (r: Option<string>)
    ensures r.None? <==> s == ""
  {
    if s == "" then None else Some(s)
  }

  /** The message shown under each field, if any. */
  datatype FormErrors = FormErrors(
    name: Option<string>,
    email: Option<string>,
    newPassword: Option<string>,
    confirmPassword: Option<string>)

  function NameError(v: FormValues): Option<string>
  {
    if Prepared(v.name).None? then Some("Name is required") else None
  }

  /** `.email()` skips an absent value, `.required()` refuses it. */
  function EmailError(v: FormValues, isEmail: string -> bool): Option<string>
  {
    if Prepared(v.email).None? then Some("Email is required")
    else if !isEmail(v.email) then Some("Invalid email address")
    else None
  }

  /** `.min(6)` on a given value, then 'new-password-required' when a current password is given. */
  function NewPasswordError(v: FormValues): Option<string>
  {
    var p := Prepared(v.newPassword);
    if p.Some? && |p.value| < MinPasswordLength then Some("Password must be at least 6 characters")
    else if Prepared(v.currentPassword).Some? && p.None? then Some("New password is required")
    else None
  }

  /** 'passwords-match', then 'confirm-password-required', both only when a new password is given. */
  function ConfirmPasswordError(v: FormValues): Option<string>
  {
    var n := Prepared(v.newPassword);
    var c := Prepared(v.confirmPassword);
    if n.Some? && c != n then Some("Passwords must match")
    else if n.Some? && c.None? then Some("Please confirm your new password")
    else None
  }

  function Errors(v: FormValues, isEmail: string -> bool): (r: FormErrors)
    ensures r.name.Some? <==> v.name == ""
    ensures r.email.Some? <==> v.email == "" || !isEmail(v.email)
    ensures r.newPassword.Some? <==>
      (v.newPassword != "" && |v.newPassword| < MinPasswordLength) || (v.currentPassword != "" && v.newPassword == "")
    ensures r.confirmPassword.Some? <==> v.newPassword != "" && v.confirmPassword != v.newPassword
  {
    FormErrors(NameError(v), EmailError(v, isEmail), NewPasswordError(v), ConfirmPasswordError(v))
  }

  /** Formik submits only when no field has a message. */
  predicate Submittable(v: FormValues, isEmail: string -> bool)
  {
    Errors(v, isEmail) == FormErrors(None, None, None, None)
  }

  /**
   * The form can be submitted exactly when name and e-mail are given (and the e-mail is
   * well formed), a current password comes with a new one, a new one has at least six
   * characters, and a new one is confirmed by an equal, hence non-empty, confirmation.
   */
  lemma SubmittableIff(v: FormValues, isEmail: string -> bool)
    ensures Submittable(v, isEmail) <==>
      && v.name != "" && v.email != "" && isEmail(v.email)
      && (v.currentPassword != "" ==> v.newPassword != "")
      && (v.newPassword != "" ==> |v.newPassword| >= MinPasswordLength)
      && (v.newPassword != "" ==> v.confirmPassword == v.newPassword && v.confirmPassword != "")
  {
  }

  /** An empty confirmation of a new password is reported as a mismatch; the 'please confirm' message never shows. */
  lemma EmptyConfirmationReportsMismatch(v: FormValues)
    ensures v.newPassword != "" && v.confirmPassword == "" ==> ConfirmPasswordError(v) == Some("Passwords must match")
    ensures ConfirmPasswordError(v) != Some("Please confirm your new password")
  {
    assert "Passwords must match"[0] != "Please confirm your new password"[1];
    assert "Passwords must match" != "Please confirm your new password";
  }

  /** `const { confirmPassword, ...updateData } = values`: the body sent to `PUT /api/users/profile`. */
  function SubmitBody(v: FormValues): (b: UserProfile.ProfileBody)
    ensures b.name == Some(v.name) && b.email == Some(v.email)
    ensures b.currentPassword == Some(v.currentPassword) && b.newPassword == Some(v.newPassword)
    ensures b.phone.None? && b.address.None? && b.role.None? && b.photo.None?
  {
    UserProfile.ProfileBody(Some(v.name), Some(v.email), None, None, Some(v.currentPassword), Some(v.newPassword), None, None)
  }

  /** The body carries every field of the form except the confirmation. */
  lemma SubmitBodyOmitsConfirmation(v: FormValues, w: FormValues)
    requires v.(confirmPassword := w.confirmPassword) == w
    ensures SubmitBody(v) == SubmitBody(w)
  {
  }

  /** `resetForm` after a successful submit: the password fields emptied, the rest kept. */
  function AfterSubmit(v: FormValues): (r: FormValues)
    ensures r.name == v.name && r.email == v.email
    ensures r.currentPassword == "" && r.newPassword == "" && r.confirmPassword == ""
  {
    v.(currentPassword := "", newPassword := "", confirmPassword := "")
  }

  /** The reset form is valid again whenever name and e-mail were. */
  lemma AfterSubmitSubmittable(v: FormValues, isEmail: string -> bool)
    requires v.name != "" && v.email != "" && isEmail(v.email)
    ensures Submittable(AfterSubmit(v), isEmail)
    ensures AfterSubmit(AfterSubmit(v)) == AfterSubmit(v)
  {
  }
}
