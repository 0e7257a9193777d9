/** The "Reset Password" page. */
module Recovery {

  const SentMessage: string := "If an account exists for this email, you will receive password reset instructions."
  const EmptyEmailError: string := "Please enter a valid email address"

  class ResetPasswordPage {
    var email: string
    var message: string
    var error: string

    constructor ()
      ensures email == "" && message == "" && error == ""
    {
      email, message, error := "", "", "";
    }

    /** `handleSubmit`: clear both texts, then report on the email's presence
        only (its format is not checked). */
    method HandleSubmit()
      modifies this
      ensures email == old(email)
      ensures email != "" ==> message == SentMessage && error == ""
      ensures email == "" ==> error == EmptyEmailError && message == ""
      ensures (error != "") != (message != "")
    {
      error := "";
      message := "";
      if email != "" {
        message := SentMessage;
      } else {
        error := EmptyEmailError;
      }
    }
  }
}
