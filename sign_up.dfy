/** The sign-up form: four checks run in a fixed order, of which only the
    first failure is reported, and the mapping from the authentication
    service's error codes to messages. */
module SignUp {
  import opened Wrappers
  import opened Text

  datatype Form = Form(displayName: string, email: string, password: string, confirmPassword: string)

  const MinPasswordLength := 6

  const NameRequired := "Display name is required"
  const EmailInvalid := "Please enter a valid email address"
  const PasswordTooShort := "Password must be at least 6 characters long"
  const PasswordsDiffer := "Passwords do not match"

  /** `validateForm`: the message of the first check that fails, if any. */
  function FirstError(form: Form): (e: Option<string>)
  {
    if IsBlank(form.displayName) then Some(NameRequired)
    else if !IsEmail(form.email) then Some(EmailInvalid)
    else if JsLength(form.password) < MinPasswordLength then Some(PasswordTooShort)
    else if form.password != form.confirmPassword then Some(PasswordsDiffer)
    else None
  }

  /** The form passes exactly when the name is not blank, the e-mail matches
      `^[^\s@]+@[^\s@]+\.[^\s@]+$`, the password is at least six UTF-16 code
      units long and equals its confirmation. */
  lemma ValidIff(form: Form)
    ensures FirstError(form).None? <==>
      && !IsBlank(form.displayName)
      && EmailShape(form.email)
      && JsLength(form.password) >= 6
      && form.password == form.confirmPassword
  {
    EmailIff(form.email);
  }

  /** Each message is reported only when every earlier check passed and its
      own check failed; so a blank name hides every later problem. */
  lemma FirstErrorOrder(form: Form)
    ensures FirstError(form) == Some(NameRequired) <==> IsBlank(form.displayName)
    ensures FirstError(form) == Some(EmailInvalid) <==> !IsBlank(form.displayName) && !EmailShape(form.email)
    ensures FirstError(form) == Some(PasswordTooShort) <==>
      !IsBlank(form.displayName) && EmailShape(form.email) && JsLength(form.password) < 6
    ensures FirstError(form) == Some(PasswordsDiffer) <==>
      !IsBlank(form.displayName) && EmailShape(form.email) && JsLength(form.password) >= 6 && form.password != form.confirmPassword
  {
    EmailIff(form.email);
  }

  /** The length boundary: with a valid name and e-mail, a five-character
      password is refused for its length and a six-character one is not. */
  lemma PasswordBoundary(form: Form)
    requires !IsBlank(form.displayName) && EmailShape(form.email)
    ensures JsLength(form.password) == 5 ==> FirstError(form) == Some(PasswordTooShort)
    ensures JsLength(form.password) == 6 ==> FirstError(form) != Some(PasswordTooShort)
  {
    EmailIff(form.email);
  }

  /** The length check counts code units: a password of three characters
      above U+FFFF (three emoji) is six units long and passes it. */
  lemma AstralPasswordLength(form: Form)
    requires !IsBlank(form.displayName) && EmailShape(form.email)
    requires form.password == "\U{1F600}\U{1F600}\U{1F600}"
    ensures FirstError(form) != Some(PasswordTooShort)
  {
    EmailIff(form.email);
    assert JsLength(form.password) == 6 by {
      var p := form.password;
      assert p[..1][..0] == [];
      assert JsLength(p[..1]) == 2;
      assert p[..2][..1] == p[..1];
      assert JsLength(p[..2]) == 4;
      assert p[..|p| - 1] == p[..2];
    }
  }

  /** The code an authentication error carries; it may have none. */
  function ErrorMessage(code: Option<string>): (m: string)
  {
    if code == Some("auth/email-already-in-use") then "An account with this email already exists"
    else if code == Some("auth/weak-password") then "Password is too weak"
    else if code == Some("auth/invalid-email") then "Invalid email address"
    else "Failed to create account"
  }

  /** The three known codes have three different messages, none of them the
      fallback, and every other code (or none) gives the fallback. */
  lemma ErrorMessageFacts(code: Option<string>)
    ensures var known := code in {Some("auth/email-already-in-use"), Some("auth/weak-password"), Some("auth/invalid-email")};
      (ErrorMessage(code) == "Failed to create account") <==> !known
    ensures ErrorMessage(Some("auth/email-already-in-use")) != ErrorMessage(Some("auth/weak-password"))
    ensures ErrorMessage(Some("auth/email-already-in-use")) != ErrorMessage(Some("auth/invalid-email"))
    ensures ErrorMessage(Some("auth/weak-password")) != ErrorMessage(Some("auth/invalid-email"))
  {
  }

  /** What the account service answers. */
  datatype SignUpResult = Created | Rejected(code: Option<string>)

  /** What the user sees after pressing the button. */
  datatype Outcome = Invalid(message: string) | Welcome(location: string) | Failed(message: string)

  /** `handleSubmit`: the account service is asked only for a valid form, with
      the e-mail, the password and the display name; success leads to the
      profile page. */
  function Submit(form: Form, signUp: (string, string, string) -> SignUpResult): (r: Outcome)
  {
    match FirstError(form)
    case Some(message) => Invalid(message)
    case None =>
      match signUp(form.email, form.password, form.displayName)
      case Created => Welcome("/profile")
      case Rejected(code) => Failed(ErrorMessage(code))
  }

  /** An invalid form never reaches the service and reports its first error;
      a valid one reports the service's answer. */
  lemma SubmitFacts(form: Form, signUp: (string, string, string) -> SignUpResult)
    ensures Submit(form, signUp).Invalid? <==> FirstError(form).Some?
    ensures Submit(form, signUp).Invalid? ==> Submit(form, signUp).message == FirstError(form).value
    ensures Submit(form, signUp).Welcome? <==>
      FirstError(form).None? && signUp(form.email, form.password, form.displayName) == Created
    ensures Submit(form, signUp).Failed? ==>
      FirstError(form).None? && signUp(form.email, form.password, form.displayName).Rejected? &&
      Submit(form, signUp).message == ErrorMessage(signUp(form.email, form.password, form.displayName).code)
  {
  }
}
