/** The sign-up form and `handleSignup`, a two-stage check over its fields. */
module Signup {

  /** The two account kinds the form's toggle can select. */
  datatype UserType = Buyer | Farmer

  datatype SignupForm = SignupForm(
    name: string, email: string, password: string, confirmPassword: string,
    location: string, userType: UserType)

  /** The form as the screen opens: empty fields, "buyer" selected. */
  function InitialForm(): SignupForm {
    SignupForm("", "", "", "", "", Buyer)
  }

  /** Which alert `handleSignup` raises; `AccountCreated`'s "OK" leads to Login. */
  datatype SignupOutcome = FillAllFields | PasswordsDiffer | AccountCreated

  predicate AnyFieldEmpty(f: SignupForm) {
    f.name == [] || f.email == [] || f.password == [] || f.confirmPassword == [] || f.location == []
  }

  function HandleSignup(f: SignupForm): (r: SignupOutcome)
    ensures r == FillAllFields <==> AnyFieldEmpty(f)
    ensures r == PasswordsDiffer <==> !AnyFieldEmpty(f) && f.password != f.confirmPassword
    ensures r == AccountCreated <==> !AnyFieldEmpty(f) && f.password == f.confirmPassword
  {
    if AnyFieldEmpty(f) then FillAllFields
    else if f.password != f.confirmPassword then PasswordsDiffer
    else AccountCreated
  }

  /** The account type takes no part in validation. */
  lemma UserTypeIrrelevant(f: SignupForm, t: UserType)
    ensures HandleSignup(f.(userType := t)) == HandleSignup(f)
  {
  }

  /** Submitting the untouched form asks for all fields, even though its two
      (empty) passwords agree. */
  lemma InitialFormIncomplete()
    ensures HandleSignup(InitialForm()) == FillAllFields
    ensures InitialForm().password == InitialForm().confirmPassword
  {
  }
}
