/** The registration page: the password rules checked before signing up,
    in the order the page checks them, and the message a failed sign-up
    shows. */
module Register {
  import opened Values

  const MISMATCH := "Password tidak cocok"
  const TOO_SHORT := "Password minimal 6 karakter"
  const SIGN_UP_FAILED := "Pendaftaran gagal"
  const MIN_PASSWORD := 6

  datatype RegisterForm = RegisterForm(email: string, password: string, confirmPassword: string, username: string)

  datatype Field = EmailField | PasswordField | ConfirmField | UsernameField

  function Get(form: RegisterForm, f: Field): string
  {
    match f
    case EmailField => form.email
    case PasswordField => form.password
    case ConfirmField => form.confirmPassword
    case UsernameField => form.username
  }

  /** `handleChange`: the named field takes the value, the others keep
      theirs. */
  function Change(form: RegisterForm, f: Field, value: string): (r: RegisterForm)
    ensures Get(r, f) == value
    ensures forall g :: g != f ==> Get(r, g) == Get(form, g)
  {
    match f
    case EmailField => form.(email := value)
    case PasswordField => form.(password := value)
    case ConfirmField => form.(confirmPassword := value)
    case UsernameField => form.(username := value)
  }

  /** The validation of `handleSubmit`: a mismatch is reported before a short
      password, and a form passes exactly when both rules hold. */
  function Validate(form: RegisterForm): (r: Option<string>)
    ensures r == Some(MISMATCH) <==> form.password != form.confirmPassword
    ensures r == Some(TOO_SHORT) <==> form.password == form.confirmPassword && |form.password| < MIN_PASSWORD
    ensures r.None? <==> form.password == form.confirmPassword && |form.password| >= MIN_PASSWORD
  {
    if form.password != form.confirmPassword then Some(MISMATCH)
    else if |form.password| < MIN_PASSWORD then Some(TOO_SHORT)
    else None
  }

  /** The `signUp(email, password, username)` call. */
  datatype SignUp = SignUp(email: string, password: string, username: string)

  /** The page after a submit: still on it with a message, or sent on. */
  datatype Outcome = Shown(error: string) | Navigated(path: string)

  /** What `signUp` answered: nothing, or an error with or without a
      message. */
  datatype SignUpError = SignUpError(message: Option<string>)

  /** `err.message || 'Pendaftaran gagal'`. */
  function FailureText(e: SignUpError): (r: string)
    ensures r != ""
    ensures e.message.Some? && e.message.value != "" ==> r == e.message.value
    ensures e.message.None? || e.message.value == "" ==> r == SIGN_UP_FAILED
  {
    match e.message
    case Some(m) => if m != "" then m else SIGN_UP_FAILED
    case None => SIGN_UP_FAILED
  }

  /** `handleSubmit`, with the service's answer to a sign-up as `answer`:
      the call is made only for a valid form, with its email, password and
      username; the page shows the validation message or the failure text,
      or goes to the dashboard. */
  function Submit(form: RegisterForm, answer: SignUp -> Option<SignUpError>): (r: (Outcome, Option<SignUp>))
    ensures r.1.Some? <==> Validate(form).None?
    ensures r.1.Some? ==> r.1.value == SignUp(form.email, form.password, form.username)
    ensures Validate(form).Some? ==> r.0 == Shown(Validate(form).value)
    ensures r.0.Navigated? <==> r.1.Some? && answer(r.1.value).None?
    ensures r.0.Navigated? ==> r.0.path == "/"
    ensures r.1.Some? && answer(r.1.value).Some? ==> r.0 == Shown(FailureText(answer(r.1.value).value))
  {
    match Validate(form)
    case Some(message) => (Shown(message), None)
    case None =>
      var call := SignUp(form.email, form.password, form.username);
      match answer(call)
      case None => (Navigated("/"), Some(call))
      case Some(e) => (Shown(FailureText(e)), Some(call))
  }
}
