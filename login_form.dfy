/** The sign-in form (src/components/auth/login-form.tsx): its two checks, the submit
    handler that signs the user in through the provider, and the forgotten-password
    handler. The account service calls are oracle parameters. */
module LoginForm {
  import opened Types
  import opened Strings
  import AuthProvider
  import SignupForm

  const MissingFields: string := "Email and password are required."
  const InvalidEmail: string := "Please enter a valid email address."
  const MissingEmail: string := "Please enter your email address first."

  /** The submit checks: both fields are required, then the email needs an '@'. */
  function LoginCheck(email: string, password: string): (r: Option<string>)
    ensures r == Some(MissingFields) <==> email == "" || password == ""
    ensures r == Some(InvalidEmail) <==> email != "" && password != "" && !Contains(email, "@")
    ensures r.None? <==> email != "" && password != "" && Contains(email, "@")
  {
    if email == "" || password == "" then Some(MissingFields)
    else if !Contains(email, "@") then Some(InvalidEmail)
    else None
  }

  /** Credentials accepted by the sign-up form always pass the sign-in checks. */
  lemma SignupCredentialsPassLoginCheck(f: SignupForm.SignupFields)
    requires SignupForm.ValidateForm(f).None?
    ensures LoginCheck(f.email, f.password).None?
  {
    SignupForm.ValidFormFacts(f);
    assert !SignupForm.Fails(f, 0);
  }

  class LoginForm {
    var email: string
    var password: string
    var error: Option<string>
    var isLoading: bool
    /** Every (email, password) pair sent to the sign-in call, in order. */
    ghost var signIns: seq<(string, string)>
    /** Every address sent to the password-reset call, in order. */
    ghost var resets: seq<string>

    constructor()
      ensures email == "" && password == "" && error == None && !isLoading
      ensures signIns == [] && resets == []
    {
      email := "";
      password := "";
      error := None;
      isLoading := false;
      signIns := [];
      resets := [];
    }

    /** `handleSubmit`: a failed check shows its message and calls nothing; otherwise the
        credentials are sent, a signed-in user is handed to the provider, a failure shows
        its message, and loading ends. */
    method HandleSubmit(signIn: (string, string) -> Outcome<User>, provider: AuthProvider.AuthProvider, serialize: User -> string)
      modifies this, provider
      ensures email == old(email) && password == old(password) && resets == old(resets)
      ensures provider.isLoading == old(provider.isLoading)
      ensures LoginCheck(email, password).Some? ==>
        error == LoginCheck(email, password) && isLoading == old(isLoading) && signIns == old(signIns) && unchanged(provider)
      ensures LoginCheck(email, password).None? ==> !isLoading && signIns == old(signIns) + [(email, password)]
      ensures LoginCheck(email, password).None? && signIn(email, password).Ok? ==>
        error == None && provider.Valid() && provider.user == Some(signIn(email, password).value)
        && provider.stored == Some(serialize(signIn(email, password).value))
        && provider.roleType == Some(signIn(email, password).value.roleType)
        && provider.specificRole == signIn(email, password).value.specificRole
        && provider.navigations == old(provider.navigations) + ["/dashboard"]
      ensures LoginCheck(email, password).None? && signIn(email, password).Fail? ==>
        error == Some(signIn(email, password).message) && unchanged(provider)
    {
      error := None;
      var invalid := LoginCheck(email, password);
      if invalid.Some? {
        error := invalid;
        return;
      }
      isLoading := true;
      signIns := signIns + [(email, password)];
      var outcome := signIn(email, password);
      match outcome {
        case Ok(u) =>
          provider.Login(u, serialize);
        case Fail(m) =>
          error := Some(m);
      }
      isLoading := false;
    }

    /** `handleForgotPassword`: without an email it asks for one and calls nothing;
        otherwise it requests a reset, clearing the error on success and showing the
        failure's message otherwise. */
    method HandleForgotPassword(resetPassword: string -> Outcome<()>)
      modifies this
      ensures email == old(email) && password == old(password) && isLoading == old(isLoading) && signIns == old(signIns)
      ensures old(email) == "" ==> error == Some(MissingEmail) && resets == old(resets)
      ensures old(email) != "" ==> resets == old(resets) + [email]
      ensures old(email) != "" && resetPassword(email).Ok? ==> error == None
      ensures old(email) != "" && resetPassword(email).Fail? ==> error == Some(resetPassword(email).message)
    {
      if email == "" {
        error := Some(MissingEmail);
        return;
      }
      resets := resets + [email];
      var outcome := resetPassword(email);
      if outcome.Ok? {
        error := None;
      } else {
        error := Some(outcome.message);
      }
    }
  }
}
