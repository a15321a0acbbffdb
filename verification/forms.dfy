/**
 * The field checks of the sign-in and registration forms
 * (src/components/AuthModal.js and src/components/Login.js). A JavaScript
 * string is falsy exactly when it is empty, so `!field` is `field == ""`.
 */
module Forms {
  import opened Options
  import opened Text

  const FillAllFields := "Please fill in all fields"
  const PasswordsDiffer := "Passwords do not match"
  const PasswordTooShort := "Password must be at least 6 characters long"

  /** The shortest password registration accepts, in UTF-16 code units. */
  const MinPasswordLength: nat := 6

  /** The sign-in check, shared by the modal and the login page: `None` means go ahead. */
  function LoginError(email: string, password: string): (r: Option<string>)
    ensures r == None <==> email != "" && password != ""
    ensures r != None ==> r == Some(FillAllFields)
  {
    if email == "" || password == "" then Some(FillAllFields) else None
  }

  /** Why registration is refused, in the order the checks run. */
  datatype RegisterError = MissingField | Mismatch | TooShort {
    function Message(): string {
      match this
      case MissingField => FillAllFields
      case Mismatch => PasswordsDiffer
      case TooShort => PasswordTooShort
    }
  }

  /**
   * The registration checks: every field filled, then the two passwords
   * equal, then the password at least six code units long. Each error is
   * reported exactly when every earlier check passed and its own fails, so an
   * empty field wins over every other problem; `None` exactly when all pass.
   */
  function RegisterCheck(name: string, email: string, password: string, confirm: string): (r: Option<RegisterError>)
    ensures r == Some(MissingField) <==> name == "" || email == "" || password == "" || confirm == ""
    ensures r == Some(Mismatch) <==>
      name != "" && email != "" && password != "" && confirm != "" && password != confirm
    ensures r == Some(TooShort) <==>
      name != "" && email != "" && password != "" && confirm != "" && password == confirm
      && Utf16Length(password) < MinPasswordLength
    ensures r == None <==>
      name != "" && email != "" && password != "" && password == confirm
      && Utf16Length(password) >= MinPasswordLength
  {
    if name == "" || email == "" || password == "" || confirm == "" then Some(MissingField)
    else if password != confirm then Some(Mismatch)
    else if Utf16Length(password) < MinPasswordLength then Some(TooShort)
    else None
  }

  /** The three messages differ, so the error shown tells which check failed. */
  lemma MessagesDistinct(a: RegisterError, b: RegisterError)
    ensures a.Message() == b.Message() <==> a == b
  {
    assert |FillAllFields| == 25 && |PasswordsDiffer| == 22 && |PasswordTooShort| == 43;
  }
}
