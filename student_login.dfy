/** The student login page: a USN and password form with a show-password
    toggle and a mock login that only checks that both fields are filled. */
module StudentLogin {
  import opened Common

  const DashboardRoute := "/student-dashboard"

  /** The login decision of `handleLogin` for the stored fields. */
  function Decide(usn: string, password: string): (outcome: LoginOutcome)
    ensures outcome.LoginSuccessful? <==> usn != "" && password != ""
    ensures outcome.LoginSuccessful? ==> outcome.route == DashboardRoute
  {
    if usn != "" && password != "" then LoginSuccessful(DashboardRoute) else LoginFailed
  }

  /** Typing `typed` into the USN field and `password` into the password
      field lets the student in exactly when neither was left empty. */
  lemma DecideAfterTyping(typed: string, password: string)
    ensures Decide(Upper(typed), password).LoginSuccessful? <==> typed != "" && password != ""
  {
  }

  class LoginForm {
    var usn: string
    var password: string
    var showPassword: bool

    /** The stored USN is always upper case. */
    ghost predicate Valid()
      reads this
    {
      NoLowerAscii(usn)
    }

    constructor ()
      ensures Valid()
      ensures usn == "" && password == "" && !showPassword
    {
      usn, password, showPassword := "", "", false;
    }

    /** The USN input stores what was typed, upper-cased; typing the
        stored value back in leaves it as it is. */
    method EditUsn(typed: string)
      requires Valid()
      modifies this
      ensures Valid()
      ensures usn == Upper(typed)
      ensures typed == old(usn) ==> usn == old(usn)
      ensures password == old(password) && showPassword == old(showPassword)
    {
      usn := Upper(typed);
    }

    /** The password input stores what was typed verbatim. */
    method EditPassword(typed: string)
      requires Valid()
      modifies this
      ensures Valid()
      ensures password == typed
      ensures usn == old(usn) && showPassword == old(showPassword)
    {
      password := typed;
    }

    /** The eye button flips the show-password flag, so two presses undo each other. */
    method TogglePassword()
      requires Valid()
      modifies this
      ensures Valid()
      ensures showPassword == !old(showPassword)
      ensures usn == old(usn) && password == old(password)
    {
      showPassword := !showPassword;
    }

    /** `handleLogin`: navigates to the student dashboard when both fields
        are filled, otherwise reports failure; the form is left as it is. */
    method Login() returns (outcome: LoginOutcome)
      ensures outcome.LoginSuccessful? <==> usn != "" && password != ""
      ensures outcome.LoginSuccessful? ==> outcome.route == DashboardRoute
    {
      outcome := Decide(usn, password);
    }
  }
}
