/**
  The registration form: the two password checks that run before sign-up,
  in their order, and the `loading`/`emailSent` flags around the sign-up
  call. The sign-up service itself is not modelled; its outcome is a
  parameter.
 */
module Register {
  import opened Wrappers
  import opened Ui

  datatype Role = Student | Employer

  /** The role as the form sends it. */
  function RoleName(r: Role): (name: string)
    ensures name == "student" || name == "employer"
    ensures name == "student" <==> r == Student
  {
    match r
    case Student => "student"
    case Employer => "employer"
  }

  const MinPasswordLength := 6

  datatype Validation = PasswordMismatch | PasswordTooShort | Acceptable

  /** The mismatch check comes first, so a short mismatched password reports the mismatch. */
  function Validate(password: string, confirm: string): (v: Validation)
    ensures v == PasswordMismatch <==> password != confirm
    ensures v == PasswordTooShort <==> password == confirm && |password| < MinPasswordLength
    ensures v == Acceptable <==> password == confirm && |password| >= MinPasswordLength
  {
    if password != confirm then PasswordMismatch
    else if |password| < MinPasswordLength then PasswordTooShort
    else Acceptable
  }

  /** The data handed to the sign-up service. */
  datatype SignUpRequest = SignUpRequest(email: string, password: string, fullName: string, role: string)

  /**
    How the sign-up call ended: an answer without error, an answer carrying
    an error, or a rejected promise (a network failure), which the handler
    does not catch.
   */
  datatype SignUpOutcome = SignedUp | SignUpError(message: string) | SignUpThrew

  const MismatchToast := Toast("Passwords don't match", "Please make sure your passwords match.", true)
  const TooShortToast := Toast("Password too short", "Password must be at least 6 characters.", true)
  const CreatedToast := Toast("Account created!", "Please check your email to confirm your account.", false)

  /** The form's state flags. */
  class RegisterForm {
    var role: Role
    var loading: bool
    var emailSent: bool

    constructor ()
      ensures role == Student && !loading && !emailSent
    {
      role := Student;
      loading := false;
      emailSent := false;
    }

    /** The two role buttons. */
    method SetRole(r: Role)
      modifies this
      ensures role == r
      ensures loading == old(loading) && emailSent == old(emailSent)
    {
      role := r;
    }

    /**
      Submits the form. A failed check shows its toast and returns before
      sign-up; otherwise sign-up is called with the form's data and ends as
      `outcome`. After an answer `loading` is false and a toast is shown,
      and `emailSent` becomes true only on success. A rejected call escapes
      the handler after `loading` was set, so the form stays loading (its
      button disabled), no toast is shown and `emailSent` keeps its value.
     */
    method HandleRegister(fullName: string, email: string, password: string, confirm: string, outcome: SignUpOutcome)
      returns (request: Option<SignUpRequest>, toast: Option<Toast>)
      modifies this
      ensures role == old(role)
      ensures request.Some? <==> Validate(password, confirm) == Acceptable
      ensures request.Some? ==> request.value == SignUpRequest(email, password, fullName, RoleName(role))
      ensures Validate(password, confirm) == PasswordMismatch ==> toast == Some(MismatchToast)
      ensures Validate(password, confirm) == PasswordTooShort ==> toast == Some(TooShortToast)
      ensures request.None? ==> loading == old(loading) && emailSent == old(emailSent)
      ensures request.Some? ==> (loading <==> outcome.SignUpThrew?)
      ensures request.Some? ==> (emailSent <==> old(emailSent) || outcome.SignedUp?)
      ensures request.Some? && outcome.SignedUp? ==> toast == Some(CreatedToast)
      ensures request.Some? && outcome.SignUpError? ==> toast == Some(Toast("Registration failed", outcome.message, true))
      ensures toast.None? <==> request.Some? && outcome.SignUpThrew?
    {
      if password != confirm {
        return None, Some(MismatchToast);
      }
      if |password| < MinPasswordLength {
        return None, Some(TooShortToast);
      }
      loading := true;
      request := Some(SignUpRequest(email, password, fullName, RoleName(role)));
      match outcome {
        case SignUpThrew =>
          return request, None;
        case SignUpError(message) =>
          toast := Some(Toast("Registration failed", message, true));
        case SignedUp =>
          toast := Some(CreatedToast);
          emailSent := true;
      }
      loading := false;
    }
  }
}
