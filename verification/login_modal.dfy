/**
 * The login / sign-up dialog: the two validators, what each submit handler
 * does to the dialog's state, and the two mode switches. Whether the auth
 * service returns a user, returns none, or throws is a parameter: the auth
 * client is not part of this model.
 */
module LoginModal {
  import opened Text

  datatype LoginData = LoginData(email: string, password: string)

  /** The role select: nothing chosen yet, or one of the two roles. */
  datatype Role = NoRole | Farmer | Labourer

  datatype SignupData = SignupData(
    fullName: string, email: string, password: string, role: Role, phone: string, location: string)

  function EmptyLogin(): LoginData
  {
    LoginData("", "")
  }

  function EmptySignup(): SignupData
  {
    SignupData("", "", "", NoRole, "", "")
  }

  /** Both login fields are required. */
  predicate LoginFilled(d: LoginData)
  {
    d.email != "" && d.password != ""
  }

  /** Name, email, password and role are required; phone and location are optional. */
  predicate SignupFilled(d: SignupData)
  {
    d.fullName != "" && d.email != "" && d.password != "" && d.role != NoRole
  }

  /** Phone and location never decide whether a sign-up may proceed. */
  lemma SignupIgnoresOptionalFields(d: SignupData, phone: string, location: string)
    ensures SignupFilled(d.(phone := phone, location := location)) == SignupFilled(d)
  {
  }

  const LoginMissingError: string := "Please fill in all fields."
  const SignupMissingError: string := "Please fill in all required fields."
  const LoginFailedError: string := "Login failed. Please try again."
  const SignupFailedError: string := "Signup failed. Please try again."

  /** How a call to the auth service ends. */
  datatype AuthOutcome = UserReturned | NoUser | Threw(message: string)

  class LoginForm {
    var isSignup: bool
    var loading: bool
    var error: string
    var loginData: LoginData
    var signupData: SignupData

    constructor ()
      ensures !isSignup && !loading && error == "" && loginData == EmptyLogin() && signupData == EmptySignup()
    {
      isSignup, loading, error := false, false, "";
      loginData, signupData := EmptyLogin(), EmptySignup();
    }

    /**
     * `handleLogin`. With a field missing the error is set and the auth
     * service is not called. Otherwise a returned user is reported to the
     * caller and the login fields are cleared, no user leaves everything as
     * entered, and a throw sets the thrown message or a fallback. Loading ends
     * false on every path.
     */
    method HandleLogin(outcome: AuthOutcome) returns (signedIn: bool)
      modifies this
      ensures !loading
      ensures isSignup == old(isSignup) && signupData == old(signupData)
      ensures !LoginFilled(old(loginData)) ==> !signedIn && error == LoginMissingError && loginData == old(loginData)
      ensures LoginFilled(old(loginData)) ==>
        && signedIn == outcome.UserReturned?
        && loginData == (if outcome.UserReturned? then EmptyLogin() else old(loginData))
        && error == (if outcome.Threw? then OrElse(outcome.message, LoginFailedError) else "")
    {
      loading := true;
      error := "";
      if !LoginFilled(loginData) {
        error := LoginMissingError;
        loading := false;
        return false;
      }
      signedIn := false;
      match outcome {
        case UserReturned =>
          signedIn := true;
          loginData := EmptyLogin();
        case NoUser =>
        case Threw(message) =>
          error := OrElse(message, LoginFailedError);
      }
      loading := false;
    }

    /** `handleSignup`: the same shape over the sign-up fields. */
    method HandleSignup(outcome: AuthOutcome) returns (signedUp: bool)
      modifies this
      ensures !loading
      ensures isSignup == old(isSignup) && loginData == old(loginData)
      ensures !SignupFilled(old(signupData)) ==> !signedUp && error == SignupMissingError && signupData == old(signupData)
      ensures SignupFilled(old(signupData)) ==>
        && signedUp == outcome.UserReturned?
        && signupData == (if outcome.UserReturned? then EmptySignup() else old(signupData))
        && error == (if outcome.Threw? then OrElse(outcome.message, SignupFailedError) else "")
    {
      loading := true;
      error := "";
      if !SignupFilled(signupData) {
        error := SignupMissingError;
        loading := false;
        return false;
      }
      signedUp := false;
      match outcome {
        case UserReturned =>
          signedUp := true;
          signupData := EmptySignup();
        case NoUser =>
        case Threw(message) =>
          error := OrElse(message, SignupFailedError);
      }
      loading := false;
    }

    /** `switchToSignup`: sign-up mode, no error, login fields cleared. */
    method SwitchToSignup()
      modifies this
      ensures isSignup && error == "" && loginData == EmptyLogin()
      ensures loading == old(loading) && signupData == old(signupData)
    {
      isSignup := true;
      error := "";
      loginData := EmptyLogin();
    }

    /** `switchToLogin`: login mode, no error, sign-up fields cleared. */
    method SwitchToLogin()
      modifies this
      ensures !isSignup && error == "" && signupData == EmptySignup()
      ensures loading == old(loading) && loginData == old(loginData)
    {
      isSignup := false;
      error := "";
      signupData := EmptySignup();
    }
  }
}
