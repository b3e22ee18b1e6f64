/** The native sign-up form's `signupFormSchema`: field checks on the name, email, password and
    terms flag, and an object-level refinement that reports a password mismatch on the
    confirmation field. */
module SignupFormNative {
  import opened Validators

  datatype SignupValues = SignupValues(
    fullName: string,
    email: string,
    password: string,
    confirmPassword: string,
    agreeToTerms: bool)

  /** The paths an error can be reported on (`confirmPassword` only by the refinement). */
  datatype SignupField = FullName | Email | Password | ConfirmPassword | AgreeToTerms

  /** The fields with an error; `isEmail` stands for zod's email check. The refinement runs
      even when a field check has failed (a length or email failure does not abort the object
      parse), so the mismatch is reported alongside the field errors. */
  function Errors(v: SignupValues, isEmail: string -> bool): (r: set<SignupField>)
    ensures FullName in r <==> !MinLength(v.fullName, 2)
    ensures Email in r <==> !isEmail(v.email)
    ensures Password in r <==> !MinLength(v.password, 8)
    ensures AgreeToTerms in r <==> !v.agreeToTerms
    ensures ConfirmPassword in r <==> v.password != v.confirmPassword
  {
    (if MinLength(v.fullName, 2) then {} else {FullName})
    + (if isEmail(v.email) then {} else {Email})
    + (if MinLength(v.password, 8) then {} else {Password})
    + (if v.agreeToTerms then {} else {AgreeToTerms})
    + (if v.password == v.confirmPassword then {} else {ConfirmPassword})
  }

  /** The form submits exactly when every field check and the equality hold. */
  lemma ValidIff(v: SignupValues, isEmail: string -> bool)
    ensures Errors(v, isEmail) == {} <==>
            |v.fullName| >= 2 && isEmail(v.email) && |v.password| >= 8 && v.agreeToTerms
            && v.password == v.confirmPassword
  {
    if Errors(v, isEmail) == {} {
      assert FullName !in Errors(v, isEmail) && Password !in Errors(v, isEmail);
    }
  }

  /** The initial values. */
  function DefaultValues(): SignupValues {
    SignupValues("", "", "", "", false)
  }

  /** The initial values never validate: the name is too short, the password too short and the
      terms unaccepted, whatever the email check decides. */
  lemma DefaultsInvalid(isEmail: string -> bool)
    ensures {FullName, Password, AgreeToTerms} <= Errors(DefaultValues(), isEmail)
    ensures ConfirmPassword !in Errors(DefaultValues(), isEmail)
  {
  }

  /** The submit button: "Creating Account..." and disabled while loading. */
  function SubmitButton(isLoading: bool): (r: (string, bool))
    ensures r.1 == isLoading
    ensures r.0 == (if isLoading then "Creating Account..." else "Create Account")
  {
    (if isLoading then "Creating Account..." else "Create Account", isLoading)
  }
}
