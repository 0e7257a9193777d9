/** The "Set New Password" page. */
module Confirmation {
  import opened Common

  const MismatchError: string := "Passwords do not match"
  const TooShortError: string := "Password must be at least 8 characters long"
  const LoginPath: string := "/login"

  /** The decision the submit handler takes on the two fields. */
  datatype Decision = GoToLogin | Reject(error: string)

  function Decide(password: string, confirmPassword: string): (d: Decision)
    ensures password != confirmPassword ==> d == Reject(MismatchError)
    ensures password == confirmPassword && |password| >= 8 ==> d == GoToLogin
    ensures password == confirmPassword && |password| < 8 ==> d == Reject(TooShortError)
  {
    if password != confirmPassword then Reject(MismatchError)
    else if |password| >= 8 then GoToLogin
    else Reject(TooShortError)
  }

  /** Every rejection carries a non-empty message, and navigation happens
      exactly for two equal passwords of at least 8 characters. */
  lemma DecideExclusive(password: string, confirmPassword: string)
    ensures Decide(password, confirmPassword).Reject? ==> Decide(password, confirmPassword).error != ""
    ensures Decide(password, confirmPassword) == GoToLogin <==>
      password == confirmPassword && |password| >= 8
  {
  }

  class ConfirmPasswordPage {
    var password: string
    var confirmPassword: string
    var error: string
    /** The path of the last navigation the page requested, if any. */
    var navigatedTo: Option<string>

    constructor ()
      ensures password == "" && confirmPassword == "" && error == "" && navigatedTo == None
    {
      password, confirmPassword, error, navigatedTo := "", "", "", None;
    }

    /** `handleSubmit`: clear the error, then either reject with a message or
        navigate to the login page. */
    method HandleSubmit()
      modifies this
      ensures password == old(password) && confirmPassword == old(confirmPassword)
      ensures Decide(password, confirmPassword) == GoToLogin ==>
        error == "" && navigatedTo == Some(LoginPath)
      ensures Decide(password, confirmPassword).Reject? ==>
        error == Decide(password, confirmPassword).error && navigatedTo == old(navigatedTo)
    {
      error := "";
      if password != confirmPassword {
        error := MismatchError;
        return;
      }
      if |password| >= 8 {
        navigatedTo := Some(LoginPath);
      } else {
        error := TooShortError;
      }
    }
  }
}
