/** The teacher login page: an email and password form with a
    show-password toggle and a mock login that only checks that both fields
    are filled. */
module TeacherLogin {
  import opened Common

  const DashboardRoute := "/teacher-dashboard"

  /** The login decision of `handleLogin` for the stored fields. */
  function Decide(email: string, password: string): (outcome: LoginOutcome)
    ensures outcome.LoginSuccessful? <==> email != "" && password != ""
    ensures outcome.LoginSuccessful? ==> outcome.route == DashboardRoute
  {
    if email != "" && password != "" then LoginSuccessful(DashboardRoute) else LoginFailed
  }

  class LoginForm {
    var email: string
    var password: string
    var showPassword: bool

    constructor ()
      ensures email == "" && password == "" && !showPassword
    {
      email, password, showPassword := "", "", false;
    }

    /** The email input stores what was typed verbatim, without case folding. */
    method EditEmail(typed: string)
      modifies this
      ensures email == typed
      ensures password == old(password) && showPassword == old(showPassword)
    {
      email := typed;
    }

    /** The password input stores what was typed verbatim. */
    method EditPassword(typed: string)
      modifies this
      ensures password == typed
      ensures email == old(email) && showPassword == old(showPassword)
    {
      password := typed;
    }

    /** The eye button flips the show-password flag, so two presses undo each other. */
    method TogglePassword()
      modifies this
      ensures showPassword == !old(showPassword)
      ensures email == old(email) && password == old(password)
    {
      showPassword := !showPassword;
    }

    /** `handleLogin`: navigates to the teacher dashboard when both fields
        are filled, otherwise reports failure; the form is left as it is. */
    method Login() returns (outcome: LoginOutcome)
      ensures outcome.LoginSuccessful? <==> email != "" && password != ""
      ensures outcome.LoginSuccessful? ==> outcome.route == DashboardRoute
    {
      outcome := Decide(email, password);
    }
  }
}
