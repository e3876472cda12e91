/** The registration screen: which sign-ups are sent, and what a success or
    a failure leaves on screen. */
module Register {
  import opened Wrappers
  import opened Payloads

  datatype SignupForm = SignupForm(
    name: string, email: string, address: string, barangay: string, phone: string, password: string)

  /** The six fields must all be non-empty. */
  predicate Complete(f: SignupForm) {
    f.name != [] && f.email != [] && f.address != [] && f.barangay != [] && f.phone != [] && f.password != []
  }

  /** Why a press of "Create Account" sends nothing. */
  datatype Refusal = MissingFields | AgreementRequired

  /** The guard of `handleRegister`: missing fields are reported before a
      missing agreement. */
  function Check(f: SignupForm, agree: bool): (r: Option<Refusal>)
    ensures r.None? <==> Complete(f) && agree
    ensures !Complete(f) ==> r == Some(MissingFields)
    ensures Complete(f) && !agree ==> r == Some(AgreementRequired)
  {
    if !Complete(f) then Some(MissingFields)
    else if !agree then Some(AgreementRequired)
    else None
  }

  /** How `POST /users/signup` ended: a response (with or without a body,
      whose `token` may be missing), or an error. */
  datatype SignupOutcome =
    | Created(hasBody: bool, token: Option<string>)
    | Rejected(serverError: Option<string>, message: Option<string>)

  /** `err?.response?.data?.error || err.message || 'Signup error'` */
  function ErrorMessage(serverError: Option<string>, message: Option<string>): (r: string)
    ensures r != []
    ensures Truthy(serverError) ==> r == serverError.value
    ensures !Truthy(serverError) && Truthy(message) ==> r == message.value
    ensures !Truthy(serverError) && !Truthy(message) ==> r == "Signup error"
  {
    OrElse(serverError, OrElse(message, "Signup error"))
  }

  class RegisterScreen {
    var form: SignupForm
    var agree: bool
    var loading: bool
    var showSuccess: bool
    var successToken: Option<string>
    /** `onGoToLogin` was called. */
    var wentToLogin: bool

    constructor ()
      ensures form == SignupForm([], [], [], [], [], []) && !agree && !loading
      ensures !showSuccess && successToken.None? && !wentToLogin
    {
      form := SignupForm([], [], [], [], [], []);
      agree := false;
      loading := false;
      showSuccess := false;
      successToken := None;
      wentToLogin := false;
    }

    /** `handleRegister`: a refused form sends nothing and changes nothing.
        Otherwise the form is posted; a response stores its token and shows
        the success overlay (without a body, the screen falls back to the
        login screen), an error yields its message. Loading is off after. */
    method HandleRegister(outcome: SignupOutcome) returns (refused: Option<Refusal>, posted: Option<SignupForm>, error: Option<string>)
      modifies this`loading, this`successToken, this`showSuccess, this`wentToLogin
      ensures refused == Check(form, agree)
      ensures refused.Some? ==>
        && posted.None? && error.None? && loading == old(loading)
        && successToken == old(successToken) && showSuccess == old(showSuccess) && wentToLogin == old(wentToLogin)
      ensures refused.None? ==> posted == Some(form) && !loading
      ensures refused.None? && outcome.Created? && outcome.hasBody ==>
        successToken == outcome.token && showSuccess && error.None? && wentToLogin == old(wentToLogin)
      ensures refused.None? && outcome.Created? && !outcome.hasBody ==>
        wentToLogin && error.None? && successToken == old(successToken) && showSuccess == old(showSuccess)
      ensures refused.None? && outcome.Rejected? ==>
        && error == Some(ErrorMessage(outcome.serverError, outcome.message))
        && successToken == old(successToken) && showSuccess == old(showSuccess) && wentToLogin == old(wentToLogin)
    {
      posted := None;
      error := None;
      refused := Check(form, agree);
      if refused.Some? {
        return;
      }
      loading := true;
      posted := Some(form);
      match outcome {
        case Created(hasBody, token) =>
          if hasBody {
            successToken := token;
            showSuccess := true;
          } else {
            wentToLogin := true;
          }
        case Rejected(serverError, message) =>
          error := Some(ErrorMessage(serverError, message));
      }
      loading := false;
    }

    /** "Continue" on the success overlay: with a token, hides the overlay
        and hands the token on; without one it does nothing. */
    method Continue() returns (forwarded: Option<string>)
      modifies this`showSuccess
      ensures Truthy(successToken) ==> forwarded == successToken && !showSuccess
      ensures !Truthy(successToken) ==> forwarded.None? && showSuccess == old(showSuccess)
    {
      forwarded := None;
      if Truthy(successToken) {
        showSuccess := false;
        forwarded := successToken;
      }
    }
  }

  /** A complete, agreed form that the server accepts hands its token on at
      "Continue". */
  method SignupHandsTokenOn(f: SignupForm, token: string)
    requires Complete(f) && token != []
  {
    var s := new RegisterScreen();
    s.form := f;
    s.agree := true;
    var refused, posted, error := s.HandleRegister(Created(true, Some(token)));
    assert refused.None? && posted == Some(f) && s.showSuccess;
    var forwarded := s.Continue();
    assert forwarded == Some(token) && !s.showSuccess;
  }
}
