/** The web log-in form's `loginFormSchema`, stated per field; it accepts and rejects exactly
    as the native schema does and labels its button the same way. */
module LoginForm {
  import opened Validators
  import opened LoginFormNative

  predicate Check(v: LoginValues, f: LoginField) {
    match f
    case EmailOrPhone => MinLength(v.emailOrPhone, 1)
    case Password => MinLength(v.password, 6)
  }

  function Errors(v: LoginValues): (r: set<LoginField>)
    ensures forall f :: f in r <==> !Check(v, f)
  {
    set f | f in {EmailOrPhone, Password} && !Check(v, f)
  }

  /** The web and native schemas report the same errors on every input. */
  lemma SameSchemaAsNative(v: LoginValues)
    ensures Errors(v) == LoginFormNative.Errors(v)
  {
    var w := Errors(v);
    var n := LoginFormNative.Errors(v);
    forall f ensures f in w <==> f in n {
      match f
      case EmailOrPhone =>
      case Password =>
    }
  }

  /** The empty initial values fail validation. */
  lemma DefaultsInvalid()
    ensures Errors(LoginValues("", "")) == {EmailOrPhone, Password}
  {
    SameSchemaAsNative(LoginValues("", ""));
  }

  /** While loading the button shows "Logging In..." and is disabled, as in the native form. */
  function SubmitButton(isLoading: bool): (r: (string, bool))
    ensures r.1 == isLoading
    ensures isLoading ==> r.0 == "Logging In..."
    ensures r == LoginFormNative.SubmitButton(isLoading)
  {
    (if isLoading then "Logging In..." else "Log In", isLoading)
  }
}
