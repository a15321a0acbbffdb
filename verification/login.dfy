/**
 * The stand-alone sign-in page (src/components/Login.js): its form, loading
 * flag and error line. As in the modal, the simulated request completes at
 * once and the router navigation is recorded in `navigations`.
 */
module Login {
  import opened Options
  import opened Forms

  datatype LoginField = Email | Password

  class LoginPage {
    var email: string
    var password: string
    var isLoading: bool
    var error: string
    var navigations: seq<string>

    constructor ()
      ensures email == "" && password == ""
      ensures !isLoading && error == "" && navigations == []
    {
      email, password, isLoading, error, navigations := "", "", false, "", [];
    }

    /** Typing into field `f`: only that field changes, and any error line is cleared. */
    method HandleChange(f: LoginField, value: string)
      modifies this
      ensures f == Email ==> email == value && password == old(password)
      ensures f == Password ==> password == value && email == old(email)
      ensures error == ""
      ensures isLoading == old(isLoading) && navigations == old(navigations)
    {
      if f == Email {
        email := value;
      } else {
        password := value;
      }
      if error != "" {
        error := "";
      }
    }

    /**
     * Submitting the form. The error line is cleared first; with either field
     * empty it then asks to fill in all fields and nothing is navigated,
     * otherwise the page navigates to the dashboard. Either way it ends not
     * loading and the fields are kept.
     */
    method HandleSubmit()
      modifies this
      ensures !isLoading && email == old(email) && password == old(password)
      ensures LoginError(email, password) == None ==>
        error == "" && navigations == old(navigations) + ["/dashboard"]
      ensures LoginError(email, password) != None ==>
        error == FillAllFields && navigations == old(navigations)
    {
      isLoading := true;
      error := "";
      var problem := LoginError(email, password);
      if problem.Some? {
        error := problem.value;
        isLoading := false;
        return;
      }
      navigations := navigations + ["/dashboard"];
      isLoading := false;
    }
  }
}
