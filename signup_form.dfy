/** The web sign-up form's `signupFormSchema`, stated per field; it accepts and rejects
    exactly as the native schema does. */
module SignupForm {
  import opened Validators
  import opened SignupFormNative

  /** Whether the check reported on `f` passes. */
  predicate Check(v: SignupValues, f: SignupField, isEmail: string -> bool) {
    match f
    case FullName => MinLength(v.fullName, 2)
    case Email => isEmail(v.email)
    case Password => MinLength(v.password, 8)
    case ConfirmPassword => v.password == v.confirmPassword
    case AgreeToTerms => v.agreeToTerms
  }

  /** The fields with an error. */
  function Errors(v: SignupValues, isEmail: string -> bool): (r: set<SignupField>)
    ensures forall f :: f in r <==> !Check(v, f, isEmail)
  {
    set f | f in {FullName, Email, Password, ConfirmPassword, AgreeToTerms} && !Check(v, f, isEmail)
  }

  /** The web and native schemas report the same errors on every input. */
  lemma SameSchemaAsNative(v: SignupValues, isEmail: string -> bool)
    ensures Errors(v, isEmail) == SignupFormNative.Errors(v, isEmail)
  {
    var w := Errors(v, isEmail);
    var n := SignupFormNative.Errors(v, isEmail);
    forall f ensures f in w <==> f in n {
      match f
      case FullName =>
      case Email =>
      case Password =>
      case ConfirmPassword =>
      case AgreeToTerms =>
    }
  }

  /** The web form's initial values (the same empty values as the native form's) never
      validate. */
  lemma DefaultsInvalid(isEmail: string -> bool)
    ensures Errors(SignupValues("", "", "", "", false), isEmail) != {}
    ensures AgreeToTerms in Errors(SignupValues("", "", "", "", false), isEmail)
  {
  }

  /** A password and a confirmation that differ are reported on the confirmation field, and
      only there among the password fields. */
  lemma MismatchOnConfirmation(v: SignupValues, isEmail: string -> bool)
    requires |v.password| >= 8 && v.password != v.confirmPassword
    ensures ConfirmPassword in Errors(v, isEmail) && Password !in Errors(v, isEmail)
  {
  }
}
