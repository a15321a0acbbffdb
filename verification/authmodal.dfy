/**
 * The sign-in / registration modal (src/components/AuthModal.js): which of
 * its three views shows, the form it edits, the loading flag and the error
 * line. The simulated one-second request is not modelled: a submit that
 * passes its checks completes at once, recording the router navigation and the
 * call of the `onClose` prop in `effects`.
 */
module AuthModal {
  import opened Options
  import opened Forms

  datatype View = Landing | SignIn | Register

  /** The buttons that switch views, each named after its caption. */
  datatype Button =
    | LandingSignIn       // "Sign In" on the landing view
    | LandingGetStarted   // "Get Started" on the landing view
    | CreateOneHere       // "Create one here" under the sign-in form
    | SignInHere          // "Sign in here" under the registration form
    | SignInBackHome      // "Back to Home" under the sign-in form
    | RegisterBackHome    // "Back to Home" under the registration form

  /** The view that renders the button. */
  function Host(b: Button): View {
    match b
    case LandingSignIn | LandingGetStarted => Landing
    case CreateOneHere | SignInBackHome => SignIn
    case SignInHere | RegisterBackHome => Register
  }

  /** The view a button switches to; `None` when the view shows no such button. */
  function Next(v: View, b: Button): (r: Option<View>)
    ensures r.Some? <==> Host(b) == v
    ensures r.Some? ==> r.value != v
  {
    if Host(b) != v then None
    else match b
      case LandingSignIn | SignInHere => Some(SignIn)
      case LandingGetStarted | CreateOneHere => Some(Register)
      case SignInBackHome | RegisterBackHome => Some(Landing)
  }

  /** Every view offers exactly one button to each other view. */
  function ButtonTo(from: View, to: View): (b: Button)
    requires from != to
    ensures Next(from, b) == Some(to)
    ensures forall c :: Next(from, c) == Some(to) ==> c == b
  {
    match (from, to)
    case (Landing, SignIn) => LandingSignIn
    case (Landing, Register) => LandingGetStarted
    case (SignIn, Register) => CreateOneHere
    case (SignIn, Landing) => SignInBackHome
    case (Register, SignIn) => SignInHere
    case (Register, Landing) => RegisterBackHome
  }

  datatype Field = Name | Email | Password | ConfirmPassword

  datatype FormData = FormData(name: string, email: string, password: string, confirmPassword: string) {
    function Get(f: Field): string {
      match f
      case Name => name
      case Email => email
      case Password => password
      case ConfirmPassword => confirmPassword
    }

    /** `{ ...prev, [f]: value }`: the named field set, every other field kept. */
    function With(f: Field, value: string): (r: FormData)
      ensures r.Get(f) == value
      ensures forall g :: g != f ==> r.Get(g) == Get(g)
    {
      match f
      case Name => this.(name := value)
      case Email => this.(email := value)
      case Password => this.(password := value)
      case ConfirmPassword => this.(confirmPassword := value)
    }
  }

  const EmptyForm := FormData("", "", "", "")

  /** What the modal asks of the world outside its own state. */
  datatype Effect = Navigate(path: string) | Close

  class AuthModalState {
    var view: View
    var formData: FormData
    var isLoading: bool
    var error: string
    var effects: seq<Effect>

    constructor ()
      ensures view == Landing && formData == EmptyForm
      ensures !isLoading && error == "" && effects == []
    {
      view, formData, isLoading, error, effects := Landing, EmptyForm, false, "", [];
    }

    /** Clicking a view-switching button, which only its host view renders. */
    method Press(b: Button)
      requires Host(b) == view
      modifies this
      ensures Next(old(view), b) == Some(view)
      ensures formData == old(formData) && isLoading == old(isLoading)
      ensures error == old(error) && effects == old(effects)
    {
      view := Next(view, b).value;
    }

    /** Typing into field `f`: only that field changes, and any error line is cleared. */
    method HandleChange(f: Field, value: string)
      modifies this
      ensures formData == old(formData).With(f, value)
      ensures error == ""
      ensures view == old(view) && isLoading == old(isLoading) && effects == old(effects)
    {
      formData := formData.With(f, value);
      if error != "" {
        error := "";
      }
    }

    /**
     * Submitting the sign-in form. With the email or the password empty the
     * error line asks to fill in all fields and nothing is navigated;
     * otherwise the modal navigates to the dashboard and closes. Either way
     * it ends not loading.
     */
    method HandleLogin()
      modifies this
      ensures !isLoading && view == old(view) && formData == old(formData)
      ensures LoginError(formData.email, formData.password) == None ==>
        error == "" && effects == old(effects) + [Navigate("/dashboard"), Close]
      ensures LoginError(formData.email, formData.password) != None ==>
        error == FillAllFields && effects == old(effects)
    {
      isLoading := true;
      error := "";
      var problem := LoginError(formData.email, formData.password);
      if problem.Some? {
        error := problem.value;
        isLoading := false;
        return;
      }
      effects := effects + [Navigate("/dashboard"), Close];
      isLoading := false;
    }

    /**
     * Submitting the registration form: the first failing check's message is
     * shown and nothing is navigated; when every check passes the modal
     * navigates to the dashboard and closes. Either way it ends not loading.
     */
    method HandleRegister()
      modifies this
      ensures !isLoading && view == old(view) && formData == old(formData)
      ensures var check := RegisterCheck(formData.name, formData.email, formData.password, formData.confirmPassword);
        && (check == None ==> error == "" && effects == old(effects) + [Navigate("/dashboard"), Close])
        && (check != None ==> error == check.value.Message() && effects == old(effects))
    {
      isLoading := true;
      error := "";
      var problem := RegisterCheck(formData.name, formData.email, formData.password, formData.confirmPassword);
      if problem.Some? {
        error := problem.value.Message();
        isLoading := false;
        return;
      }
      effects := effects + [Navigate("/dashboard"), Close];
      isLoading := false;
    }
  }
}
