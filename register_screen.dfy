/**
 * The sign-up screen (MobileRN/src/screens/auth/RegisterScreen.tsx): the
 * checks made before the auth context's `register` is called, and what the
 * screen does with its answer.
 */
module RegisterScreen {
  import opened Common

  datatype RegisterCredentials = RegisterCredentials(name: string, email: string, password: string, confirmPassword: string)

  /** What `register` answers. */
  datatype AuthResult = AuthResult(success: bool, error: Option<string>)

  datatype Alert = Alert(title: string, message: string)

  const MinPasswordLength := 6

  /**
   * The validation chain: an empty field (not trimmed), then a confirmation
   * that differs, then a short password; `None` when all pass.
   */
  function ValidationError(c: RegisterCredentials): (e: Option<string>)
    ensures (c.email == "" || c.password == "" || c.confirmPassword == "" || c.name == "")
            ==> e == Some("Please fill in all fields")
    ensures c.email != "" && c.password != "" && c.confirmPassword != "" && c.name != "" && c.password != c.confirmPassword
            ==> e == Some("Passwords do not match")
    ensures c.email != "" && c.password != "" && c.confirmPassword != "" && c.name != "" && c.password == c.confirmPassword
            && |c.password| < MinPasswordLength
            ==> e == Some("Password must be at least 6 characters")
    ensures e.None? <==> c.email != "" && c.name != "" && c.password == c.confirmPassword && |c.password| >= MinPasswordLength
  {
    if c.email == "" || c.password == "" || c.confirmPassword == "" || c.name == "" then Some("Please fill in all fields")
    else if c.password != c.confirmPassword then Some("Passwords do not match")
    else if |c.password| < MinPasswordLength then Some("Password must be at least 6 characters")
    else None
  }

  /** Whitespace passes the emptiness test: a blank name is accepted. */
  lemma BlankNameAccepted(email: string, password: string)
    requires email != "" && |password| >= MinPasswordLength
    ensures ValidationError(RegisterCredentials(" ", email, password, password)).None?
  {
  }

  class Register {
    var credentials: RegisterCredentials
    var loading: bool

    constructor()
      ensures credentials == RegisterCredentials("", "", "", "") && !loading
    {
      credentials := RegisterCredentials("", "", "", "");
      loading := false;
    }

    /**
     * `handleRegister`: `register` is called exactly when validation
     * passes; the screen goes to Home only on success, otherwise an alert
     * carries the reason; `loading` is false once `register` has answered.
     */
    method HandleRegister(register: RegisterCredentials -> AuthResult)
      returns (called: bool, navigatedHome: bool, alert: Option<Alert>)
      modifies this
      ensures called <==> ValidationError(old(credentials)).None?
      ensures !called ==> !navigatedHome && alert == Some(Alert("Error", ValidationError(old(credentials)).value))
                          && loading == old(loading)
      ensures called ==> !loading && (navigatedHome <==> register(old(credentials)).success)
      ensures called && register(old(credentials)).success ==> alert.None?
      ensures called && !register(old(credentials)).success
              ==> alert == Some(Alert("Registration Failed", OptionOr(register(old(credentials)).error, "Could not create account")))
      ensures credentials == old(credentials)
    {
      var error := ValidationError(credentials);
      if error.Some? {
        return false, false, Some(Alert("Error", error.value));
      }
      loading := true;
      var result := register(credentials);
      loading := false;
      called := true;
      if result.success {
        navigatedHome := true;
        alert := None;
      } else {
        navigatedHome := false;
        alert := Some(Alert("Registration Failed", OptionOr(result.error, "Could not create account")));
      }
    }
  }
}
