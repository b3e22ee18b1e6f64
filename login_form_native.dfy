/** The native log-in form's `loginFormSchema`: a required email-or-phone text and a password
    of at least six characters. */
module LoginFormNative {
  import opened Validators

  datatype LoginValues = LoginValues(emailOrPhone: string, password: string)

  datatype LoginField = EmailOrPhone | Password

  /** The fields with an error. `.min(1)` does not trim, so a single space is a valid
      email-or-phone value. */
  function Errors(v: LoginValues): (r: set<LoginField>)
    ensures EmailOrPhone in r <==> v.emailOrPhone == ""
    ensures Password in r <==> |v.password| < 6
    ensures r == {} <==> v.emailOrPhone != "" && |v.password| >= 6
  {
    (if MinLength(v.emailOrPhone, 1) then {} else {EmailOrPhone})
    + (if MinLength(v.password, 6) then {} else {Password})
  }

  function DefaultValues(): LoginValues {
    LoginValues("", "")
  }

  /** The empty initial values fail on both fields; a lone space with a six-character password
      passes. */
  lemma DefaultsInvalidSpaceValid()
    ensures Errors(DefaultValues()) == {EmailOrPhone, Password}
    ensures Errors(LoginValues(" ", "secret")) == {}
  {
  }

  /** The submit button: "Logging In..." and disabled while loading. */
  function SubmitButton(isLoading: bool): (r: (string, bool))
    ensures r.1 == isLoading
    ensures r.0 == (if isLoading then "Logging In..." else "Log In")
  {
    (if isLoading then "Logging In..." else "Log In", isLoading)
  }
}
