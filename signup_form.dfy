/** The sign-up form (src/components/auth/signup-form.tsx): its field validation, where
    the first failing check decides the message, the submit handler that creates the
    account and signs the new user in, and the account-type switch that keeps the
    specific role consistent with the account type. The account service call is an
    oracle parameter. */
module SignupForm {
  import opened Types
  import opened Strings
  import AuthProvider

  datatype SignupFields = SignupFields(
    email: string,
    password: string,
    confirmPassword: string,
    username: string,
    roleType: UserRoleType,
    specificRole: Option<UserSpecificRole>)

  /** The validation messages, in the order the checks run. */
  const Messages: seq<string> := [
    "All fields are required.",
    "Please enter a valid email address.",
    "Password must be at least 6 characters long.",
    "Passwords do not match.",
    "Username must be at least 3 characters long.",
    "Please select your specific role."
  ]

  /** Whether check `i` fails for the fields. */
  predicate Fails(f: SignupFields, i: nat) {
    if i == 0 then f.email == "" || f.password == "" || f.confirmPassword == "" || f.username == ""
    else if i == 1 then !Contains(f.email, "@")
    else if i == 2 then |f.password| < 6
    else if i == 3 then f.password != f.confirmPassword
    else if i == 4 then |f.username| < 3
    else if i == 5 then f.roleType == UserRole && f.specificRole.None?
    else false
  }

  /** `validateForm`: the message of the first failing check, or nothing when all pass. */
  function ValidateForm(f: SignupFields): (r: Option<string>)
    ensures r.None? <==> forall i :: 0 <= i < 6 ==> !Fails(f, i)
    ensures r.Some? ==> r.value in Messages
  {
    if Fails(f, 0) then Some(Messages[0])
    else if Fails(f, 1) then Some(Messages[1])
    else if Fails(f, 2) then Some(Messages[2])
    else if Fails(f, 3) then Some(Messages[3])
    else if Fails(f, 4) then Some(Messages[4])
    else if Fails(f, 5) then Some(Messages[5])
    else None
  }

  lemma MessagesDistinct(i: nat, j: nat)
    requires i < j < 6
    ensures Messages[i] != Messages[j]
  {
    if i == 2 && j == 4 {
      assert Messages[i][0] != Messages[j][0];
    } else {
      assert |Messages[i]| != |Messages[j]|;
    }
  }

  /** The form reports message `i` exactly when check `i` fails and every earlier check
      passes. */
  lemma ValidateFormFirstFailure(f: SignupFields, i: nat)
    requires i < 6
    ensures ValidateForm(f) == Some(Messages[i]) <==> Fails(f, i) && forall j :: 0 <= j < i ==> !Fails(f, j)
  {
    var r := ValidateForm(f);
    if r == Some(Messages[i]) {
      var k :| 0 <= k < 6 && Fails(f, k) && (forall j :: 0 <= j < k ==> !Fails(f, j)) && r == Some(Messages[k]) by {
        if Fails(f, 0) { assert r == Some(Messages[0]); }
        else if Fails(f, 1) { assert r == Some(Messages[1]); }
        else if Fails(f, 2) { assert r == Some(Messages[2]); }
        else if Fails(f, 3) { assert r == Some(Messages[3]); }
        else if Fails(f, 4) { assert r == Some(Messages[4]); }
        else { assert r == Some(Messages[5]); }
      }
      if k < i { MessagesDistinct(k, i); }
      else if i < k { MessagesDistinct(i, k); }
    }
  }

  /** A form that passes validation satisfies what the account service is then asked for:
      an email with an '@', a password of at least six characters typed twice, a username
      of at least three, and a specific role whenever the account type is User. */
  lemma ValidFormFacts(f: SignupFields)
    requires ValidateForm(f).None?
    ensures Contains(f.email, "@") && |f.password| >= 6 && f.password == f.confirmPassword && |f.username| >= 3
    ensures f.roleType == UserRole ==> f.specificRole.Some?
  {
    assert !Fails(f, 1) && !Fails(f, 2) && !Fails(f, 3) && !Fails(f, 4) && !Fails(f, 5);
  }

  /** The arguments of the account service's sign-up call. */
  datatype SignUpRequest = SignUpRequest(email: string, password: string, username: string, roleType: UserRoleType, specificRole: Option<UserSpecificRole>)

  /** The request the form sends: the specific role goes only with a User account. */
  function RequestOf(f: SignupFields): (q: SignUpRequest)
    ensures q.email == f.email && q.password == f.password && q.username == f.username && q.roleType == f.roleType
    ensures q.roleType == AdministratorRole ==> q.specificRole == None
    ensures q.roleType == UserRole ==> q.specificRole == f.specificRole
  {
    SignUpRequest(f.email, f.password, f.username, f.roleType, if f.roleType == UserRole then f.specificRole else None)
  }

  /** Every request a validated form sends carries a specific role exactly when the
      account type is User, so the user record the account service writes for it (with
      any uid, email and timestamps) is role-consistent. */
  lemma ValidRequestRoleConsistent(f: SignupFields, uid: string, email: string, createdAt: string, lastLoginAt: string)
    requires ValidateForm(f).None?
    ensures RequestOf(f).specificRole.Some? <==> RequestOf(f).roleType == UserRole
    ensures var q := RequestOf(f);
      RoleConsistent(User(uid, email, Some(q.username), q.username, q.roleType, q.specificRole, Some(createdAt), Some(lastLoginAt)))
  {
    ValidFormFacts(f);
  }

  /** The fields after the account-type radio changes: switching to User picks CEO when no
      role is chosen yet, switching to Administrator clears the role. */
  function RoleTypeChanged(f: SignupFields, newRoleType: UserRoleType): (g: SignupFields)
    ensures g.roleType == newRoleType
    ensures g.email == f.email && g.password == f.password && g.confirmPassword == f.confirmPassword && g.username == f.username
    ensures newRoleType == AdministratorRole ==> g.specificRole == None
    ensures newRoleType == UserRole ==> g.specificRole.Some?
    ensures newRoleType == UserRole && f.specificRole.Some? ==> g.specificRole == f.specificRole
  {
    if newRoleType == UserRole && f.specificRole.None? then f.(roleType := newRoleType, specificRole := Some(CEO))
    else if newRoleType == AdministratorRole then f.(roleType := newRoleType, specificRole := None)
    else f.(roleType := newRoleType)
  }

  /** After any account-type change the role check of the validation passes. */
  lemma RoleChangePassesRoleCheck(f: SignupFields, newRoleType: UserRoleType)
    ensures !Fails(RoleTypeChanged(f, newRoleType), 5)
  {
  }

  class SignupForm {
    var fields: SignupFields
    var error: Option<string>
    var isLoading: bool
    /** Every request sent to the account service, in order. */
    ghost var requests: seq<SignUpRequest>

    constructor()
      ensures fields == SignupFields("", "", "", "", UserRole, Some(CEO))
      ensures error == None && !isLoading && requests == []
    {
      fields := SignupFields("", "", "", "", UserRole, Some(CEO));
      error := None;
      isLoading := false;
      requests := [];
    }

    /** The account-type radio's change handler. */
    method OnRoleTypeChange(newRoleType: UserRoleType)
      modifies this
      ensures fields == RoleTypeChanged(old(fields), newRoleType)
      ensures error == old(error) && isLoading == old(isLoading) && requests == old(requests)
    {
      var f := fields.(roleType := newRoleType);
      if newRoleType == UserRole && fields.specificRole.None? {
        f := f.(specificRole := Some(CEO));
      } else if newRoleType == AdministratorRole {
        f := f.(specificRole := None);
      }
      fields := f;
    }

    /** `handleSubmit`: a form that fails validation shows the message and calls nothing;
        otherwise the account is requested, a created user is signed in through the
        provider, a failure shows its message, and loading ends. */
    method HandleSubmit(signUp: SignUpRequest -> Outcome<User>, provider: AuthProvider.AuthProvider, serialize: User -> string)
      modifies this, provider
      ensures fields == old(fields)
      ensures provider.isLoading == old(provider.isLoading)
      ensures ValidateForm(fields).Some? ==>
        error == ValidateForm(fields) && isLoading == old(isLoading) && requests == old(requests) && unchanged(provider)
      ensures ValidateForm(fields).None? ==> !isLoading && requests == old(requests) + [RequestOf(fields)]
      ensures ValidateForm(fields).None? && signUp(RequestOf(fields)).Ok? ==>
        error == None && provider.Valid() && provider.user == Some(signUp(RequestOf(fields)).value)
        && provider.stored == Some(serialize(signUp(RequestOf(fields)).value))
        && provider.roleType == Some(signUp(RequestOf(fields)).value.roleType)
        && provider.specificRole == signUp(RequestOf(fields)).value.specificRole
        && provider.navigations == old(provider.navigations) + ["/dashboard"]
      ensures ValidateForm(fields).None? && signUp(RequestOf(fields)).Fail? ==>
        error == Some(signUp(RequestOf(fields)).message) && unchanged(provider)
    {
      error := None;
      var invalid := ValidateForm(fields);
      if invalid.Some? {
        error := invalid;
        return;
      }
      isLoading := true;
      var request := RequestOf(fields);
      requests := requests + [request];
      var outcome := signUp(request);
      match outcome {
        case Ok(u) =>
          provider.Login(u, serialize);
        case Fail(m) =>
          error := Some(m);
      }
      isLoading := false;
    }
  }
}
